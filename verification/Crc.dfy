/** The CRC-16 of a Modbus RTU frame and what it detects.

    The sender turns a `crc` variable eight times for every byte; the register of section 6.2.2 of
    "MODBUS over Serial Line Specification and Implementation Guide V1.02" takes one transmitted bit
    at a time, least significant bit first. `Feed` is that register, and every result about corrupted
    frames is proved on it.
 */
module Crc {

  type byte = bv8

  // ---------------------------------------------------------------- the byte algorithm

  const INIT: bv16 := 0xffff

  function Xor(a: bv16, b: bv16): bv16 { a ^ b }

  function Word(b: byte): bv16 { b as bv16 }

  /** One turn of the inner loop: the bit shifted out is fed back into the taps of 0xa001. */
  function Shift(c: bv16): bv16 {
    (c >> 1) ^ (c & 1) ^ ((c & 1) << 13) ^ ((c & 1) << 15)
  }

  lemma ShiftBranches(c: bv16)
    ensures Shift(c) == if c & 1 != 0 then (c >> 1) ^ 0xa001 else c >> 1
  {
    if c & 1 != 0 { ShiftOdd(c); } else { ShiftEven(c); }
  }

  lemma ShiftEven(c: bv16)
    requires c & 1 == 0
    ensures Shift(c) == c >> 1
  {
  }

  lemma ShiftOdd(c: bv16)
    requires c & 1 != 0
    ensures Shift(c) == (c >> 1) ^ 0xa001
  {
  }

  function Shifts(c: bv16, n: nat): bv16
    decreases n, c
  {
    if n == 0 then c else Shifts(Shift(c), n - 1)
  }

  /** The variable `crc` after the bytes of `data`. */
  function Register(data: seq<byte>): bv16
    decreases |data|
  {
    if data == [] then INIT
    else Shifts(Xor(Register(data[..|data| - 1]), Word(data[|data| - 1])), 8)
  }

  function Low(c: bv16): byte { (c & 0xff) as byte }

  function High(c: bv16): byte { (c >> 8) as byte }

  /** `data` followed by its checksum, low byte first. */
  function RtuOf(data: seq<byte>): (frame: seq<byte>)
    ensures |frame| == |data| + 2
  {
    data + [Low(Register(data)), High(Register(data))]
  }

  predicate ValidCrc(frame: seq<byte>) {
    |frame| >= 4 && RtuOf(frame[..|frame| - 2]) == frame
  }

  lemma {:induction false} ShiftsSnoc(c: bv16, n: nat)
    ensures Shifts(c, n + 1) == Shift(Shifts(c, n))
    decreases n
  {
    if n > 0 { ShiftsSnoc(Shift(c), n - 1); }
  }

  method Rtu(data: seq<byte>) returns (frame: seq<byte>)
    ensures frame == RtuOf(data)
  {
    var crc := INIT;
    for k := 0 to |data|
      invariant crc == Register(data[..k])
    {
      assert data[..k + 1][..k] == data[..k];
      crc := Xor(crc, Word(data[k]));
      ghost var start := crc;
      for i := 0 to 8
        invariant crc == Shifts(start, i)
      {
        ShiftsSnoc(start, i);
        ShiftBranches(crc);
        if crc & 1 != 0 {
          crc := (crc >> 1) ^ 0xa001;
        } else {
          crc := crc >> 1;
        }
      }
    }
    assert data[..|data|] == data;
    frame := data + [Low(crc), High(crc)];
  }

  method CheckCrc(data: seq<byte>) returns (ok: bool)
    ensures ok == ValidCrc(data)
  {
    if |data| < 4 {
      return false;
    }
    var n := |data|;
    var probe := Rtu(data[..n - 2]);
    ok := probe[|probe| - 2] == data[n - 2] && probe[|probe| - 1] == data[n - 1];
    assert data == data[..n - 2] + [data[n - 2], data[n - 1]];
    assert probe == data[..n - 2] + [probe[n - 2], probe[n - 1]];
  }

  // ---------------------------------------------------------------- linearity

  lemma ShiftLinear(a: bv16, b: bv16)
    ensures Shift(Xor(a, b)) == Xor(Shift(a), Shift(b))
  {
  }

  /** The inverse of a turn. */
  function Back(c: bv16): bv16 {
    (c << 1) ^ (c >> 15) ^ ((c >> 15) << 1) ^ ((c >> 15) << 14)
  }

  lemma BackShift(c: bv16)
    ensures Back(Shift(c)) == c && Shift(Back(c)) == c
  {
  }

  lemma {:induction false} ShiftsLinear(a: bv16, b: bv16, n: nat)
    ensures Shifts(Xor(a, b), n) == Xor(Shifts(a, n), Shifts(b, n))
    decreases n
  {
    if n > 0 {
      ShiftLinear(a, b);
      ShiftsLinear(Shift(a), Shift(b), n - 1);
    }
  }

  lemma {:induction false} ShiftsInjective(a: bv16, b: bv16, n: nat)
    requires Shifts(a, n) == Shifts(b, n)
    ensures a == b
    decreases n
  {
    if n > 0 {
      ShiftsInjective(Shift(a), Shift(b), n - 1);
      BackShift(a);
      BackShift(b);
    }
  }

  lemma {:induction false} ShiftsAdd(c: bv16, m: nat, n: nat)
    ensures Shifts(c, m + n) == Shifts(Shifts(c, m), n)
    decreases m
  {
    if m > 0 { ShiftsAdd(Shift(c), m - 1, n); }
  }

  lemma {:induction false} ShiftsZero(n: nat)
    ensures Shifts(0, n) == 0
    decreases n
  {
    assert Shift(0) == 0;
    if n > 0 { ShiftsZero(n - 1); }
  }

  // ---------------------------------------------------------------- the bit register

  function Bit(b: bool): bv16 { if b then 1 else 0 }

  function Odd(x: bv16): bool { x & 1 != 0 }

  function Half(x: bv16): bv16 { x >> 1 }

  /** The serial register fed with bits, first bit first. */
  function Feed(c: bv16, bits: seq<bool>): bv16
    decreases |bits|
  {
    if bits == [] then c else Feed(Shift(Xor(c, Bit(bits[0]))), bits[1..])
  }

  /** The lowest n bits of x, lowest first: the order of transmission. */
  function BitsOf(x: bv16, n: nat): (r: seq<bool>)
    ensures |r| == n
    decreases n, x
  {
    if n == 0 then [] else [Odd(x)] + BitsOf(Half(x), n - 1)
  }

  function FrameBits(data: seq<byte>): (r: seq<bool>)
    ensures |r| == 8 * |data|
    decreases |data|
  {
    if data == [] then [] else FrameBits(data[..|data| - 1]) + BitsOf(Word(data[|data| - 1]), 8)
  }

  lemma {:induction false} FeedConcat(c: bv16, u: seq<bool>, v: seq<bool>)
    ensures Feed(c, u + v) == Feed(Feed(c, u), v)
    decreases |u|
  {
    if u == [] {
      assert u + v == v;
    } else {
      assert (u + v)[1..] == u[1..] + v;
      FeedConcat(Shift(Xor(c, Bit(u[0]))), u[1..], v);
    }
  }

  /** x has no bit at position n or above. */
  predicate Small(x: bv16, n: nat)
    decreases n, x
  {
    if n == 0 then x == 0 else Small(Half(x), n - 1)
  }

  function Ones(n: nat): bv16
    requires n <= 16
  {
    if n == 0 then 0 else if n == 1 then 1 else if n == 2 then 3 else if n == 3 then 7
    else if n == 4 then 0xf else if n == 5 then 0x1f else if n == 6 then 0x3f else if n == 7 then 0x7f
    else if n == 8 then 0xff else if n == 9 then 0x1ff else if n == 10 then 0x3ff else if n == 11 then 0x7ff
    else if n == 12 then 0xfff else if n == 13 then 0x1fff else if n == 14 then 0x3fff else if n == 15 then 0x7fff
    else 0xffff
  }

  lemma {:induction false} SmallBounded(x: bv16, n: nat)
    requires n <= 16
    ensures Small(x, n) <==> x <= Ones(n)
    decreases n
  {
    if n > 0 {
      assert Ones(n - 1) == Ones(n) >> 1;
      SmallBounded(Half(x), n - 1);
    }
  }

  lemma ShiftSplitOdd(c: bv16, x: bv16)
    requires Odd(x)
    ensures Shift(Xor(c, x)) == Xor(Shift(Xor(c, 1)), Half(x))
  {
  }

  lemma ShiftSplitEven(c: bv16, x: bv16)
    requires !Odd(x)
    ensures Shift(Xor(c, x)) == Xor(Shift(Xor(c, 0)), Half(x))
  {
  }

  lemma ShiftSplit(c: bv16, x: bv16)
    ensures Shift(Xor(c, x)) == Xor(Shift(Xor(c, Bit(Odd(x)))), Half(x))
  {
    if Odd(x) { ShiftSplitOdd(c, x); } else { ShiftSplitEven(c, x); }
  }

  /** Feeding the bits of x one by one is adding x first and turning n times. */
  lemma {:induction false} FeedBits(c: bv16, x: bv16, n: nat)
    requires Small(x, n)
    ensures Feed(c, BitsOf(x, n)) == Shifts(Xor(c, x), n)
    decreases n
  {
    if n == 0 {
      assert Xor(c, 0) == c;
    } else {
      ShiftSplit(c, x);
      assert BitsOf(x, n)[1..] == BitsOf(Half(x), n - 1);
      FeedBits(Shift(Xor(c, Bit(Odd(x)))), Half(x), n - 1);
    }
  }

  lemma ByteIsSmall(b: byte)
    ensures Small(Word(b), 8)
  {
    SmallBounded(Word(b), 8);
  }

  /** The byte loop computes the serial register. */
  lemma {:induction false} RegisterIsSerial(data: seq<byte>)
    ensures Register(data) == Feed(INIT, FrameBits(data))
    decreases |data|
  {
    if data != [] {
      var front, b := data[..|data| - 1], data[|data| - 1];
      RegisterIsSerial(front);
      FeedConcat(INIT, FrameBits(front), BitsOf(Word(b), 8));
      ByteIsSmall(b);
      FeedBits(Register(front), Word(b), 8);
    }
  }
}
