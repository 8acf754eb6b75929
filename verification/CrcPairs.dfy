/** Two flipped bits: the checksum polynomial has period 32767, so no frame that fits in 4095
    bytes can hide a pair of them.

    Turning the register k times multiplies its content by a power of x. `Combine` is that
    product, so the content after a large number of turns comes from a few products, and the
    turns that bring 1 back to 1 are closed under subtraction, hence under common divisors.
 */
module CrcPairs {
  import opened Crc
  import opened CrcStrength

  /** The product of v and b, bit by bit of v. */
  function Combine(v: bv16, b: bv16, n: nat): bv16
    decreases n
  {
    if n == 0 then 0 else Xor(if Odd(v) then b else 0, Back(Combine(Half(v), b, n - 1)))
  }

  lemma Recompose(v: bv16)
    ensures Xor(if Odd(v) then 1 else 0, Back(Half(v))) == v
  {
    if Odd(v) {
      assert Xor(1, Back(Half(v))) == v;
    } else {
      assert Xor(0, Back(Half(v))) == v;
    }
  }

  lemma {:induction false} CombineOne(v: bv16, n: nat)
    requires Small(v, n)
    ensures Combine(v, 1, n) == v
    decreases n
  {
    if n > 0 {
      CombineOne(Half(v), n - 1);
      Recompose(v);
    }
  }

  lemma {:induction false} ShiftsBack(c: bv16, k: nat)
    ensures Shifts(Back(c), k) == Back(Shifts(c, k))
    decreases k
  {
    if k > 0 {
      BackShift(c);
      ShiftsBack(Shift(c), k - 1);
    }
  }

  lemma {:induction false} ShiftsCombine(v: bv16, b: bv16, n: nat, k: nat)
    ensures Shifts(Combine(v, b, n), k) == Combine(v, Shifts(b, k), n)
    decreases n
  {
    ShiftsZero(k);
    if n > 0 {
      var rest := Combine(Half(v), b, n - 1);
      ShiftsLinear(if Odd(v) then b else 0, Back(rest), k);
      ShiftsBack(rest, k);
      ShiftsCombine(Half(v), b, n - 1, k);
    }
  }

  /** Turning a + b times multiplies what a turns and b turns give. */
  lemma AddTurns(a: nat, b: nat, u: bv16, v: bv16, w: bv16)
    requires Shifts(1, a) == u && Shifts(1, b) == v && Combine(u, v, 16) == w
    ensures Shifts(1, a + b) == w
  {
    ShiftsAdd(1, a, b);
    SmallBounded(u, 16);
    CombineOne(u, 16);
    ShiftsCombine(u, 1, 16, b);
  }

  // The contents after the powers of two, then after the three numbers the period argument needs.
  // The upper half of each product is evaluated first.

  lemma Turns1()
    ensures Shifts(1, 1) == 0xa001
  {
    assert Shifts(1, 1) == Shifts(Shift(1), 0);
  }

  lemma Turns2() ensures Shifts(1, 2) == 0xf001 {
    Turns1();
    assert Combine(0xa0, 0xa001, 8) == 0x50;
    assert Combine(0xa001, 0xa001, 16) == 0xf001;
    AddTurns(1, 1, 0xa001, 0xa001, 0xf001);
  }

  lemma Turns4() ensures Shifts(1, 4) == 0xcc01 {
    Turns2();
    assert Combine(0xf0, 0xf001, 8) == 0x3c;
    assert Combine(0xf001, 0xf001, 16) == 0xcc01;
    AddTurns(2, 2, 0xf001, 0xf001, 0xcc01);
  }

  lemma Turns8() ensures Shifts(1, 8) == 0xc0c1 {
    Turns4();
    assert Combine(0xcc, 0xcc01, 8) == 0x500c;
    assert Combine(0xcc01, 0xcc01, 16) == 0xc0c1;
    AddTurns(4, 4, 0xcc01, 0xcc01, 0xc0c1);
  }

  lemma Turns16() ensures Shifts(1, 16) == 0x9001 {
    Turns8();
    assert Combine(0xc0, 0xc0c1, 8) == 0x5000;
    assert Combine(0xc0c1, 0xc0c1, 16) == 0x9001;
    AddTurns(8, 8, 0xc0c1, 0xc0c1, 0x9001);
  }

  lemma Turns32() ensures Shifts(1, 32) == 0xfc01 {
    Turns16();
    assert Combine(0x90, 0x9001, 8) == 0x6c;
    assert Combine(0x9001, 0x9001, 16) == 0xfc01;
    AddTurns(16, 16, 0x9001, 0x9001, 0xfc01);
  }

  lemma Turns64() ensures Shifts(1, 64) == 0xccc1 {
    Turns32();
    assert Combine(0xfc, 0xfc01, 8) == 0x5030;
    assert Combine(0xfc01, 0xfc01, 16) == 0xccc1;
    AddTurns(32, 32, 0xfc01, 0xfc01, 0xccc1);
  }

  lemma Turns128() ensures Shifts(1, 128) == 0x90c1 {
    Turns64();
    assert Combine(0xcc, 0xccc1, 8) == 0x50c;
    assert Combine(0xccc1, 0xccc1, 16) == 0x90c1;
    AddTurns(64, 64, 0xccc1, 0xccc1, 0x90c1);
  }

  lemma Turns256() ensures Shifts(1, 256) == 0xac01 {
    Turns128();
    assert Combine(0x90, 0x90c1, 8) == 0x6c6c;
    assert Combine(0x90c1, 0x90c1, 16) == 0xac01;
    AddTurns(128, 128, 0x90c1, 0x90c1, 0xac01);
  }

  lemma Turns512() ensures Shifts(1, 512) == 0xf0c1 {
    Turns256();
    assert Combine(0xac, 0xac01, 8) == 0x505c;
    assert Combine(0xac01, 0xac01, 16) == 0xf0c1;
    AddTurns(256, 256, 0xac01, 0xac01, 0xf0c1);
  }

  lemma Turns1024() ensures Shifts(1, 1024) == 0x9c01 {
    Turns512();
    assert Combine(0xf0, 0xf0c1, 8) == 0x443c;
    assert Combine(0xf0c1, 0xf0c1, 16) == 0x9c01;
    AddTurns(512, 512, 0xf0c1, 0xf0c1, 0x9c01);
  }

  lemma Turns2048() ensures Shifts(1, 2048) == 0xfcc1 {
    Turns1024();
    assert Combine(0x9c, 0x9c01, 8) == 0x5060;
    assert Combine(0x9c01, 0x9c01, 16) == 0xfcc1;
    AddTurns(1024, 1024, 0x9c01, 0x9c01, 0xfcc1);
  }

  lemma Turns4096() ensures Shifts(1, 4096) == 0x9cc1 {
    Turns2048();
    assert Combine(0xfc, 0xfcc1, 8) == 0x1130;
    assert Combine(0xfcc1, 0xfcc1, 16) == 0x9cc1;
    AddTurns(2048, 2048, 0xfcc1, 0xfcc1, 0x9cc1);
  }

  lemma Turns8192() ensures Shifts(1, 8192) == 0xacc1 {
    Turns4096();
    assert Combine(0x9c, 0x9cc1, 8) == 0x3960;
    assert Combine(0x9cc1, 0x9cc1, 16) == 0xacc1;
    AddTurns(4096, 4096, 0x9cc1, 0x9cc1, 0xacc1);
  }

  lemma Turns16384() ensures Shifts(1, 16384) == 0xa0c1 {
    Turns8192();
    assert Combine(0xac, 0xacc1, 8) == 0x2d5c;
    assert Combine(0xacc1, 0xacc1, 16) == 0xa0c1;
    AddTurns(8192, 8192, 0xacc1, 0xacc1, 0xa0c1);
  }

  lemma Turns32768() ensures Shifts(1, 32768) == 0xa001 {
    Turns16384();
    assert Combine(0xa0, 0xa0c1, 8) == 0x7850;
    assert Combine(0xa0c1, 0xa0c1, 16) == 0xa001;
    AddTurns(16384, 16384, 0xa0c1, 0xa0c1, 0xa001);
  }

  lemma Turns192() ensures Shifts(1, 192) == 0x955d {
    Turns128(); Turns64();
    assert Combine(0x90, 0xccc1, 8) == 0x6c09;
    assert Combine(0x90c1, 0xccc1, 16) == 0x955d;
    AddTurns(128, 64, 0x90c1, 0xccc1, 0x955d);
  }

  lemma Turns208() ensures Shifts(1, 208) == 0xfff8 {
    Turns192(); Turns16();
    assert Combine(0x95, 0x9001, 8) == 0x506f;
    assert Combine(0x955d, 0x9001, 16) == 0xfff8;
    AddTurns(192, 16, 0x955d, 0x9001, 0xfff8);
  }

  lemma Turns216() ensures Shifts(1, 216) == 0x82fe {
    Turns208(); Turns8();
    assert Combine(0xff, 0xc0c1, 8) == 0x4040;
    assert Combine(0xfff8, 0xc0c1, 16) == 0x82fe;
    AddTurns(208, 8, 0xfff8, 0xc0c1, 0x82fe);
  }

  lemma Turns217() ensures Shifts(1, 217) == 0x417f {
    Turns216(); Turns1();
    assert Combine(0x82, 0xa001, 8) == 0x41;
    assert Combine(0x82fe, 0xa001, 16) == 0x417f;
    AddTurns(216, 1, 0x82fe, 0xa001, 0x417f);
  }

  lemma Turns1056() ensures Shifts(1, 1056) == 0xd2c1 {
    Turns1024(); Turns32();
    assert Combine(0x9c, 0xfc01, 8) == 0x502e;
    assert Combine(0x9c01, 0xfc01, 16) == 0xd2c1;
    AddTurns(1024, 32, 0x9c01, 0xfc01, 0xd2c1);
  }

  lemma Turns1057() ensures Shifts(1, 1057) == 0xc961 {
    Turns1056(); Turns1();
    assert Combine(0xd2, 0xa001, 8) == 0x69;
    assert Combine(0xd2c1, 0xa001, 16) == 0xc961;
    AddTurns(1056, 1, 0xd2c1, 0xa001, 0xc961);
  }

  lemma Turns4608() ensures Shifts(1, 4608) == 0x876d {
    Turns4096(); Turns512();
    assert Combine(0x9c, 0xf0c1, 8) == 0x6927;
    assert Combine(0x9cc1, 0xf0c1, 16) == 0x876d;
    AddTurns(4096, 512, 0x9cc1, 0xf0c1, 0x876d);
  }

  lemma Turns4672() ensures Shifts(1, 4672) == 0xb930 {
    Turns4608(); Turns64();
    assert Combine(0x87, 0xccc1, 8) == 0x8649;
    assert Combine(0x876d, 0xccc1, 16) == 0xb930;
    AddTurns(4608, 64, 0x876d, 0xccc1, 0xb930);
  }

  lemma Turns4680() ensures Shifts(1, 4680) == 0x14b9 {
    Turns4672(); Turns8();
    assert Combine(0xb9, 0xc0c1, 8) == 0xb2c1;
    assert Combine(0xb930, 0xc0c1, 16) == 0x14b9;
    AddTurns(4672, 8, 0xb930, 0xc0c1, 0x14b9);
  }

  lemma Turns4681() ensures Shifts(1, 4681) == 0xaa5d {
    Turns4680(); Turns1();
    assert Combine(0x14, 0xa001, 8) == 0xa;
    assert Combine(0x14b9, 0xa001, 16) == 0xaa5d;
    AddTurns(4680, 1, 0x14b9, 0xa001, 0xaa5d);
  }

  // ---------------------------------------------------------------- periods

  predicate Period(k: nat) { Shifts(1, k) == 1 }

  lemma PeriodMinus(a: nat, b: nat)
    requires b <= a && Period(a) && Period(b)
    ensures Period(a - b)
  {
    ShiftsAdd(1, a - b, b);
    ShiftsInjective(Shifts(1, a - b), 1, b);
  }

  lemma {:induction false} PeriodTimes(g: nat, m: nat)
    requires Period(g)
    ensures Period(m * g)
    decreases m
  {
    if m > 0 {
      PeriodTimes(g, m - 1);
      ShiftsAdd(1, (m - 1) * g, g);
      assert (m - 1) * g + g == m * g;
    }
  }

  /** Two periods have a common divisor that is a period: subtract the smaller from the larger. */
  lemma {:induction false} CommonPeriod(a: nat, b: nat) returns (g: nat, p: nat, q: nat)
    requires 0 < a && 0 < b && Period(a) && Period(b)
    ensures 0 < g && Period(g) && a == p * g && b == q * g
    decreases a + b
  {
    if a == b {
      g, p, q := a, 1, 1;
    } else if a < b {
      PeriodMinus(b, a);
      g, p, q := CommonPeriod(a, b - a);
      q := p + q;
    } else {
      PeriodMinus(a, b);
      g, p, q := CommonPeriod(a - b, b);
      p := p + q;
    }
  }

  lemma LongPeriod()
    ensures Period(32767)
  {
    Turns1();
    Turns32768();
    ShiftsAdd(1, 32767, 1);
    ShiftsInjective(Shifts(1, 32767), 1, 1);
  }

  // ---- 32767 = 7 * 31 * 151

  /** No number from 2 to n divides p. */
  predicate Undivided(p: nat, n: nat)
    decreases n
  {
    n < 2 || (p % n != 0 && Undivided(p, n - 1))
  }

  lemma {:induction false} UndividedBy(p: nat, n: nat, r: nat)
    requires Undivided(p, n) && 2 <= r <= n
    ensures p % r != 0
    decreases n
  {
    if r < n { UndividedBy(p, n - 1, r); }
  }

  lemma Remainder(p: nat, r: nat)
    requires 0 < r
    ensures p == r * (p / r) + p % r && p % r < r
  {
  }

  lemma Grows(e: nat, x: nat)
    requires 0 < x
    ensures e <= e * x
  {
  }

  lemma Distribute(p: int, x: int, y: int)
    ensures p * (x - y) == p * x - p * y
  {
  }

  lemma Assoc(x: int, y: int, z: int)
    ensures x * (y * z) == (x * y) * z == y * (x * z)
  {
  }

  lemma Cancel(p: nat, x: int, y: int)
    requires 0 < p && p * x == p * y
    ensures x == y
  {
    Distribute(p, x, y);
    Distribute(p, y, x);
    if x > y { Grows(p, x - y); } else if x < y { Grows(p, y - x); }
  }

  lemma EuclidStep(p: int, r: int, s: int, k: int, t: int, u: int)
    requires p == r * t + u && r * s == p * k
    ensures u * s == p * (s - t * k)
  {
    Distribute(s, p, r * t);
    Assoc(t, r, s);
    Assoc(t, p, k);
    Distribute(p, s, t * k);
  }

  /** A prime that divides r * s with r below it divides s. */
  lemma {:induction false} Euclid(p: nat, r: nat, s: nat, k: int) returns (m: int)
    requires 0 < r < p && Undivided(p, p - 1) && r * s == p * k
    ensures s == p * m
    decreases r
  {
    if r == 1 {
      m := k;
    } else {
      var t, u := p / r, p % r;
      Remainder(p, r);
      UndividedBy(p, p - 1, r);
      EuclidStep(p, r, s, k, t, u);
      m := Euclid(p, u, s, s - t * k);
    }
  }

  /** A prime that divides a product divides one of the factors. */
  lemma PrimeSplits(p: nat, q: nat, g: nat, n: nat) returns (inFirst: bool, m: int)
    requires 1 < p && Undivided(p, p - 1) && q * g == p * n
    ensures inFirst ==> q == p * m && m * g == n
    ensures !inFirst ==> g == p * m && q * m == n
  {
    var t, r := q / p, q % p;
    Remainder(q, p);
    if r == 0 {
      inFirst, m := true, t;
      Assoc(p, m, g);
      Cancel(p, m * g, n);
    } else {
      assert r * g == p * (n - t * g) by {
        Distribute(g, q, p * t);
        Assoc(p, t, g);
        Distribute(p, n, t * g);
      }
      inFirst := false;
      m := Euclid(p, r, g, n - t * g);
      Assoc(q, p, m);
      Cancel(p, q * m, n);
    }
  }

  lemma Factors151(q: int, c: int)
    requires 1 < q && 1 < c
    ensures q * c != 151
  {
    if 13 <= q && 13 <= c {
      assert q * c == 169 + 13 * (q - 13) + 13 * (c - 13) + (q - 13) * (c - 13);
    } else if q <= 12 {
      SmallFactor151(q, c);
    } else {
      SmallFactor151(c, q);
    }
  }

  lemma SmallFactor151(q: int, c: int)
    requires 2 <= q <= 12
    ensures q * c != 151
  {
    if q <= 4 { assert q == 2 || q == 3 || q == 4; }
    else if q <= 8 { assert q == 5 || q == 6 || q == 7 || q == 8; }
    else { assert q == 9 || q == 10 || q == 11 || q == 12; }
  }

  lemma ThreePeriods()
    ensures !Period(217) && !Period(1057) && !Period(4681)
  {
    Turns217();
    Turns1057();
    Turns4681();
  }

  lemma ThirtyOneIsPrime()
    ensures Undivided(31, 30)
  {
    assert Undivided(31, 8);
    assert Undivided(31, 16);
    assert Undivided(31, 24);
  }

  lemma PositiveFactor(g: nat, x: int, n: nat)
    requires x * g == n && 0 < n
    ensures 0 < x
  {
  }

  /** No proper divisor of 32767 is a period: it would divide one of the three tested above. */
  lemma NoProperDivisor(g: nat, q: nat)
    requires 0 < g && 1 < q && q * g == 32767
    ensures !Period(g)
  {
    assert Undivided(7, 6);
    var in7, a := PrimeSplits(7, q, g, 4681);
    ThreePeriods();
    if in7 {
      NotDividing(g, a, 4681);
    } else {
      PositiveFactor(q, a, 4681);
      ThirtyOneIsPrime();
      var in31, b := PrimeSplits(31, q, a, 151);
      if in31 {
        Assoc(b, 7, a);
        NotDividing(g, b, 1057);
      } else {
        PositiveFactor(q, b, 151);
        if b > 1 { Factors151(q, b); }
      }
    }
  }

  lemma NotDividing(g: nat, a: int, n: nat)
    requires a * g == n && 0 < n && !Period(n)
    ensures !Period(g)
  {
    PositiveFactor(g, a, n);
    if Period(g) { PeriodTimes(g, a); }
  }

  lemma CommonBelow(d: nat, g: nat, p: nat, q: nat)
    requires 0 < d < 32767 && d == p * g && 32767 == q * g
    ensures 1 < q
  {
    if p > 0 { Grows(g, p); }
  }

  lemma NoPeriodBelow(d: nat)
    requires 0 < d < 32767
    ensures !Period(d)
  {
    if Period(d) {
      LongPeriod();
      var g, p, q := CommonPeriod(d, 32767);
      CommonBelow(d, g, p, q);
      NoProperDivisor(g, q);
    }
  }

  /** The periods are the multiples of 32767. */
  lemma PeriodExactlyWhen(d: nat)
    ensures Period(d) <==> d % 32767 == 0
  {
    var q, r := d / 32767, d % 32767;
    LongPeriod();
    PeriodTimes(32767, q);
    if r != 0 { NoPeriodBelow(r); }
    if Period(d) { PeriodMinus(d, q * 32767); }
  }

  /** A frame with exactly two flipped bits is accepted exactly when they are a multiple of 32767
      bits apart; so two flips in a frame of at most 4095 bytes are rejected. */
  lemma PairsAcceptedExactlyAPeriodApart(f: seq<byte>, g: seq<byte>, i: nat, j: nat)
    requires ValidCrc(f) && |g| == |f| && i < j < 8 * |f|
    requires forall k :: 0 <= k < 8 * |f| ==> (Flips(f, g)[k] <==> k == i || k == j)
    ensures ValidCrc(g) <==> (j - i) % 32767 == 0
    ensures |f| <= 4095 ==> !ValidCrc(g)
  {
    var e := Flips(f, g);
    var gap := e[i + 1..j];
    assert e == e[..i] + ([true] + gap + [true]) + e[j + 1..];
    AcceptedIffFlipsClear(f, g);
    FeedAround(e[..i], [true] + gap + [true], e[j + 1..]);
    FeedPair(gap);
    PeriodExactlyWhen(j - i);
  }

  /** Two set bits with nothing between them clear the register exactly a period apart. */
  lemma FeedPair(gap: seq<bool>)
    requires NoneSet(gap)
    ensures Feed(0, [true] + gap + [true]) == 0 <==> Period(|gap| + 1)
  {
    var d := |gap| + 1;
    FeedConcat(0, [true] + gap, [true]);
    FeedConcat(0, [true], gap);
    FeedOne(0);
    FeedNone(Shift(1), gap);
    var x := Shifts(1, d);
    FeedOne(x);
    assert Feed(0, [true] + gap + [true]) == Shift(Xor(x, 1));
    OneClears();
    if Shift(Xor(x, 1)) == 0 { OnlyOneClears(x); }
  }

  lemma OneClears()
    ensures Shift(Xor(1, 1)) == 0
  {
  }

  lemma FeedOne(x: bv16)
    ensures Feed(x, [true]) == Shift(Xor(x, 1))
    ensures Xor(0, 1) == 1
  {
    assert [true][1..] == [];
  }

  lemma OnlyOneClears(x: bv16)
    requires Shift(Xor(x, 1)) == 0
    ensures x == 1
  {
    BackShift(Xor(x, 1));
    assert Back(0) == 0;
  }
}
