/** The two constants of the checksum, told from its behaviour: the generator x^16 + x^15 + x^2 + 1 and the
    preload of the register. */
module CrcGenerator {
  import opened Crc
  import opened CrcStrength

  // ---------------------------------------------------------------- the preload

  /** The bits with the first 16 inverted. */
  function StartInverted(bits: seq<bool>): (r: seq<bool>)
    ensures |r| == |bits|
  {
    seq(|bits|, k requires 0 <= k < |bits| => bits[k] != (k < 16))
  }

  lemma AllOnes()
    ensures forall k | 0 <= k < 16 :: BitsOf(0xffff, 16)[k]
  {
    OnesAre(0xffff, 16);
  }

  lemma {:induction false} OnesAre(x: bv16, n: nat)
    requires n <= 16 && x == Ones(n)
    ensures forall k | 0 <= k < n :: BitsOf(x, n)[k]
    decreases n
  {
    if n > 0 {
      assert Odd(Ones(n)) && Half(Ones(n)) == Ones(n - 1);
      OnesAre(Half(x), n - 1);
      assert BitsOf(x, n)[1..] == BitsOf(Half(x), n - 1);
      forall k | 1 <= k < n ensures BitsOf(x, n)[k] { assert BitsOf(x, n)[k] == BitsOf(x, n)[1..][k - 1]; }
    }
  }

  lemma Inversion(bits: seq<bool>)
    requires |bits| >= 16
    ensures
      var e := Diff(bits, StartInverted(bits));
      e[..16] == BitsOf(0xffff, 16) && NoneSet(e[16..])
  {
    hide BitsOf, Diff;
    AllOnes();
    var other := StartInverted(bits);
    var e := Diff(bits, other);
    assert forall k | 0 <= k < |e| :: e[k] == (bits[k] != other[k]) == (k < 16);
    assert forall k | 0 <= k < 16 :: e[..16][k] == BitsOf(0xffff, 16)[k];
    assert forall k | 0 <= k < |e| - 16 :: e[16..][k] == e[16 + k];
  }

  lemma PreloadInverts(bits: seq<bool>)
    requires |bits| >= 16
    ensures Feed(0xffff, bits) == Feed(0, StartInverted(bits))
  {
    hide Feed, Shift, Shifts, Xor, BitsOf, Diff, StartInverted;
    var other := StartInverted(bits);
    var e := Diff(bits, other);
    Inversion(bits);
    assert e == e[..16] + e[16..];
    FeedConcat(0xffff, e[..16], e[16..]);
    FeedOwnBits(0xffff);
    FeedNone(0, e[16..]);
    ShiftsZero(|e[16..]|);
    FeedLinear(0xffff, 0, bits, other);
    XorWithNone(0xffff);
    EqualByXor(Feed(0xffff, bits), Feed(0, other));
  }

  lemma XorWithNone(a: bv16)
    ensures Xor(a, 0) == a
  {
  }

  lemma EqualByXor(a: bv16, b: bv16)
    requires Xor(a, b) == 0
    ensures a == b
  {
  }

  /** A frame is accepted exactly when its transmitted bits, the first 16 inverted, leave a register that
      starts at zero at zero. */
  lemma ValidIffInvertedStartClears(frame: seq<byte>)
    requires |frame| >= 4
    ensures ValidCrc(frame) <==> Feed(0, StartInverted(FrameBits(frame))) == 0
  {
    ValidIffRegisterClears(frame);
    PreloadInverts(FrameBits(frame));
  }

  // ---------------------------------------------------------------- the generator

  /** The coefficients of x^16, x^15, x^2 and 1, highest first. */
  predicate Generator(k: int) { k == 0 || k == 1 || k == 14 || k == 16 }

  lemma BitsFrom(x: bv16, y: bv16, b: bool, n: nat)
    requires n > 0 && Odd(x) == b && Half(x) == y
    ensures BitsOf(x, n) == [b] + BitsOf(y, n - 1)
  {
  }

  lemma LastBits()
    ensures BitsOf(0x14, 5) == [false, false, true, false, true]
  {
    BitsFrom(1, 0, true, 1);
    BitsFrom(2, 1, false, 2);
    BitsFrom(5, 2, true, 3);
    BitsFrom(0xa, 5, false, 4);
    BitsFrom(0x14, 0xa, false, 5);
  }

  lemma MiddleBits()
    ensures BitsOf(0x280, 10) == [false, false, false, false, false] + BitsOf(0x14, 5)
  {
    BitsFrom(0x28, 0x14, false, 6);
    BitsFrom(0x50, 0x28, false, 7);
    BitsFrom(0xa0, 0x50, false, 8);
    BitsFrom(0x140, 0xa0, false, 9);
    BitsFrom(0x280, 0x140, false, 10);
  }

  /** What is fed back, lowest bit first. */
  lemma FeedbackBits()
    ensures forall k | 0 <= k < 16 :: BitsOf(0xa001, 16)[k] <==> Generator(k + 1)
  {
    BitsFrom(0x500, 0x280, false, 11);
    BitsFrom(0xa00, 0x500, false, 12);
    BitsFrom(0x1400, 0xa00, false, 13);
    BitsFrom(0x2800, 0x1400, false, 14);
    BitsFrom(0x5000, 0x2800, false, 15);
    BitsFrom(0xa001, 0x5000, true, 16);
    MiddleBits();
    LastBits();
    assert BitsOf(0xa001, 16) == [true, false, false, false, false, false, false, false, false, false, false, false,
                                  false, true, false, true];
  }

  /** Of the strings of 17 bits that begin with a set one, only the generator clears an empty register. */
  lemma OnlyTheGeneratorClears(w: seq<bool>)
    requires |w| == 17 && w[0]
    ensures Feed(0, w) == 0 <==> forall k | 0 <= k < 17 :: w[k] <==> Generator(k)
  {
    hide Feed, BitsOf;
    FeedbackBits();
    FeedFirst(w);
    FeedOwnBits(0xa001);
    var rest, taps := w[1..], BitsOf(0xa001, 16);
    if Feed(0xa001, rest) == 0 { FeedToZero(0xa001, rest); }
    assert rest == taps <==> forall k | 0 <= k < 16 :: rest[k] == taps[k];
    assert forall k | 0 <= k < 16 :: rest[k] == w[k + 1];
    if rest == taps {
      forall k | 0 <= k < 17 ensures w[k] <==> Generator(k) { if k > 0 { assert w[k] == rest[k - 1]; } }
    }
  }

  lemma FeedFirst(w: seq<bool>)
    requires w != [] && w[0]
    ensures Feed(0, w) == Feed(0xa001, w[1..])
  {
    TurnsOne();
  }

  lemma TurnsOne()
    ensures Shift(Xor(0, 1)) == 0xa001
  {
    assert Xor(0, 1) == 1;
  }

  /** The shortest corruption that goes unnoticed: flips within 17 consecutive transmitted bits, the first of
      them flipped, are accepted exactly when they are those of the generator, the bits 0, 1, 14 and 16. */
  lemma ShortestUnnoticedBurst(f: seq<byte>, g: seq<byte>, i: nat)
    requires ValidCrc(f) && |g| == |f| && i + 17 <= |Flips(f, g)| && Flips(f, g)[i]
    requires forall k | 0 <= k < |Flips(f, g)| && Flips(f, g)[k] :: i <= k < i + 17
    ensures ValidCrc(g) <==> forall k | 0 <= k < |Flips(f, g)| :: Flips(f, g)[k] <==> Generator(k - i)
  {
    hide Feed, FrameBits, Diff, ValidCrc, Flips;
    AcceptedIffFlipsClear(f, g);
    BurstClears(Flips(f, g), i);
  }

  lemma BurstClears(e: seq<bool>, i: nat)
    requires i + 17 <= |e| && e[i] && forall k | 0 <= k < |e| && e[k] :: i <= k < i + 17
    ensures Feed(0, e) == 0 <==> forall k | 0 <= k < |e| :: e[k] <==> Generator(k - i)
  {
    hide Feed;
    var pre, w, post := e[..i], e[i..i + 17], e[i + 17..];
    assert e == pre + w + post;
    assert NoneSet(pre) && NoneSet(post);
    FeedAround(pre, w, post);
    OnlyTheGeneratorClears(w);
    if forall k | 0 <= k < 17 :: w[k] <==> Generator(k) {
      forall k | 0 <= k < |e| ensures e[k] <==> Generator(k - i) { if i <= k < i + 17 { assert e[k] == w[k - i]; } }
    }
    if forall k | 0 <= k < |e| :: e[k] <==> Generator(k - i) {
      forall k | 0 <= k < 17 ensures w[k] <==> Generator(k) { assert w[k] == e[i + k]; }
    }
  }
}
