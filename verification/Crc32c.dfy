/** CRC-32C (src/crc32c.cpp; section 12.1 of RFC 3720): the table-driven loop against the bit-at-a-time definition.

    A 32-bit register is a sequence of 32 bits, least significant first; `Number` reads it as an integer. */
module Crc32c {
  import opened Types

  type Word = w: seq<bool> | |w| == 32 witness seq(32, i => false)

  function Bits(n: nat, width: nat): (bits: seq<bool>)
    ensures |bits| == width
  {
    if width == 0 then [] else [n % 2 == 1] + Bits(n / 2, width - 1)
  }

  function Number(bits: seq<bool>): nat {
    if bits == [] then 0 else (if bits[0] then 1 else 0) + 2 * Number(bits[1..])
  }

  function Zeros(n: nat): seq<bool> { seq(n, i => false) }

  function Xor(a: Word, b: Word): Word { seq(32, i requires 0 <= i < 32 => a[i] != b[i]) }

  function Complement(a: Word): Word { seq(32, i requires 0 <= i < 32 => !a[i]) }

  /** A logical right shift by `n`. */
  function Down(a: Word, n: nat): Word
    requires n <= 32
  {
    a[n..] + Zeros(n)
  }

  /** The Castagnoli polynomial, bit-reflected. */
  const POLYNOMIAL: Word := Bits(0x82F6_3B78, 32)

  function Wide(b: u8): Word { Bits(b, 8) + Zeros(24) }

  /** The low byte of a register. */
  function LowByte(w: Word): u8 {
    NumberBound(w[..8]);
    Number(w[..8])
  }

  // ---------------------------------------------------------------- the definition

  /** Divide out one bit. */
  function Shift(c: Word): Word { if c[0] then Xor(Down(c, 1), POLYNOMIAL) else Down(c, 1) }

  function Shifts(c: Word, n: nat): Word { if n == 0 then c else Shift(Shifts(c, n - 1)) }

  /** Absorb one byte, bit by bit. */
  function Absorb(c: Word, b: u8): Word { Shifts(Xor(c, Wide(b)), 8) }

  function Register(c: Word, data: Bytes): Word {
    if data == [] then c else Absorb(Register(c, data[..|data| - 1]), data[|data| - 1])
  }

  /** The checksum of `data`, continuing from `seed`. */
  function Checksum(data: Bytes, seed: Word): Word { Complement(Register(Complement(seed), data)) }

  const NO_SEED: Word := Zeros(32)

  /** The checksum as the 32-bit integer the formats store. */
  function Crc(data: Bytes): u32 {
    NumberBound(Checksum(data, NO_SEED));
    Number(Checksum(data, NO_SEED))
  }

  // ---------------------------------------------------------------- numbers

  function Pow2(n: nat): nat { if n == 0 then 1 else 2 * Pow2(n - 1) }

  lemma {:induction false} NumberBelow(bits: seq<bool>)
    ensures Number(bits) < Pow2(|bits|)
  {
    if bits != [] { NumberBelow(bits[1..]); }
  }

  lemma NumberBound(bits: seq<bool>)
    requires |bits| == 8 || |bits| == 32
    ensures |bits| == 8 ==> Number(bits) < 0x100
    ensures |bits| == 32 ==> Number(bits) < 0x1_0000_0000
  {
    NumberBelow(bits);
    assert Pow2(8) == 0x100;
    Powers();
  }

  lemma Powers()
    ensures Pow2(31) == 0x8000_0000 && Pow2(32) == 0x1_0000_0000
  {
    assert Pow2(8) == 0x100;
    assert Pow2(16) == 0x1_0000;
    assert Pow2(24) == 0x100_0000;
    assert Pow2(31) == 0x8000_0000;
  }

  lemma {:induction false} BitsOfNumber(bits: seq<bool>)
    ensures Bits(Number(bits), |bits|) == bits
  {
    if bits != [] {
      BitsOfNumber(bits[1..]);
      var n := Number(bits[1..]);
      assert ((if bits[0] then 1 else 0) + 2 * n) / 2 == n;
    }
  }

  lemma NumberInjective(a: seq<bool>, b: seq<bool>)
    requires |a| == |b| && Number(a) == Number(b)
    ensures a == b
  {
    BitsOfNumber(a);
    BitsOfNumber(b);
  }

  lemma {:induction false} NumberOfBits(n: nat, width: nat)
    requires n < Pow2(width)
    ensures Number(Bits(n, width)) == n
  {
    if width > 0 {
      NumberOfBits(n / 2, width - 1);
      assert Bits(n, width)[1..] == Bits(n / 2, width - 1);
    }
  }

  // ---------------------------------------------------------------- one byte through the table

  lemma DownLinear(a: Word, b: Word)
    ensures Down(Xor(a, b), 1) == Xor(Down(a, 1), Down(b, 1))
  {}

  lemma XorMoves(x: Word, y: Word, p: Word)
    ensures Xor(Xor(x, p), y) == Xor(Xor(x, y), p) == Xor(x, Xor(y, p))
  {}

  lemma XorTwice(x: Word, y: Word, p: Word)
    ensures Xor(Xor(x, p), Xor(y, p)) == Xor(x, y)
  {}

  lemma ShiftLinear(a: Word, b: Word)
    ensures Shift(Xor(a, b)) == Xor(Shift(a), Shift(b))
  {
    hide Down, Bits;
    var x, y := Down(a, 1), Down(b, 1);
    DownLinear(a, b);
    XorMoves(x, y, POLYNOMIAL);
    XorTwice(x, y, POLYNOMIAL);
  }

  lemma {:induction false} ShiftsLinear(a: Word, b: Word, n: nat)
    ensures Shifts(Xor(a, b), n) == Xor(Shifts(a, n), Shifts(b, n))
  {
    if n > 0 {
      ShiftsLinear(a, b, n - 1);
      ShiftLinear(Shifts(a, n - 1), Shifts(b, n - 1));
    }
  }

  /** The register without its low byte. */
  function High(w: Word): Word { Zeros(8) + w[8..] }

  /** One more place down. */
  lemma DownOnce(w: Word, n: nat)
    requires n < 32
    ensures Down(Down(w, n), 1) == Down(w, n + 1)
  {}

  /** Bits above the low byte only move down. */
  lemma {:induction false} HighBitsMove(w: Word, n: nat)
    requires n <= 8
    ensures Shifts(High(w), n) == Down(High(w), n)
  {
    if n > 0 {
      hide Xor;
      HighBitsMove(w, n - 1);
      LowBitClear(w, n - 1);
      DownOnce(High(w), n - 1);
    } else {
      assert High(w)[0..] + Zeros(0) == High(w);
    }
  }

  /** No set bit reaches the low end while the zeros of the low byte last. */
  lemma LowBitClear(w: Word, n: nat)
    requires n < 8
    ensures !Down(High(w), n)[0]
  {
    assert High(w)[n] == Zeros(8)[n];
  }

  lemma SplitByte(w: Word)
    ensures w == Xor(Wide(LowByte(w)), High(w))
  {
    BitsOfNumber(w[..8]);
  }

  /** Eight bit-steps are one table lookup and one shift. */
  lemma TableStep(c: Word, b: u8)
    ensures Absorb(c, b) == Xor(Shifts(Wide(LowByte(Xor(c, Wide(b)))), 8), Down(c, 8))
  {
    var x := Xor(c, Wide(b));
    SplitByte(x);
    ShiftsLinear(Wide(LowByte(x)), High(x), 8);
    HighBitsMove(x, 8);
    assert Down(High(x), 8) == Down(c, 8);
  }

  ghost predicate IsTable(table: seq<Word>) {
    |table| == 256 && forall i: u8 :: table[i] == Shifts(Wide(i), 8)
  }

  /** `make_table`. */
  method MakeTable() returns (table: array<Word>)
    ensures fresh(table) && IsTable(table[..])
  {
    table := new Word[256](i => NO_SEED);
    var i := 0;
    while i < 256
      invariant 0 <= i <= 256
      invariant forall j: u8 :: j < i ==> table[j] == Shifts(Wide(j), 8)
    {
      var crc := Wide(i);
      var bit := 0;
      while bit < 8
        invariant 0 <= bit <= 8 && crc == Shifts(Wide(i), bit)
      {
        crc := if crc[0] then Xor(Down(crc, 1), POLYNOMIAL) else Down(crc, 1);
        bit := bit + 1;
      }
      table[i] := crc;
      i := i + 1;
    }
  }

  /** `crc32c`: the fast loop computes the bitwise checksum, for every input and seed. */
  method Compute(table: array<Word>, data: Bytes, seed: Word) returns (crc: Word)
    requires IsTable(table[..])
    ensures crc == Checksum(data, seed)
  {
    var c := Complement(seed);
    var i := 0;
    while i < |data|
      invariant i <= |data| && c == Register(Complement(seed), data[..i])
    {
      assert data[..i + 1][..i] == data[..i];
      TableStep(c, data[i]);
      var index := LowByte(Xor(c, Wide(data[i])));
      assert table[..][index] == Shifts(Wide(index), 8);
      c := Xor(table[index], Down(c, 8));
      i := i + 1;
    }
    assert data[..i] == data;
    crc := Complement(c);
  }

  // ---------------------------------------------------------------- composition and detection

  lemma {:induction false} RegisterConcat(c: Word, x: Bytes, y: Bytes)
    ensures Register(c, x + y) == Register(Register(c, x), y)
  {
    if y == [] {
      assert x + y == x;
    } else {
      var init, last := y[..|y| - 1], y[|y| - 1];
      RegisterConcat(c, x, init);
      assert (x + y)[..|x + y| - 1] == x + init;
    }
  }

  /** Checksums compose over concatenation. */
  lemma ChecksumConcat(x: Bytes, y: Bytes, seed: Word)
    ensures Checksum(x + y, seed) == Checksum(y, Checksum(x, seed))
  {
    RegisterConcat(Complement(seed), x, y);
    ComplementTwice(Register(Complement(seed), x));
  }

  lemma ComplementTwice(w: Word)
    ensures Complement(Complement(w)) == w
  {}

  lemma {:induction false} TopBitOf(n: nat, width: nat)
    requires 0 < width && Pow2(width - 1) <= n < Pow2(width)
    ensures Bits(n, width)[width - 1]
  {
    if width > 1 { TopBitOf(n / 2, width - 1); }
  }

  lemma TopBit()
    ensures POLYNOMIAL[31]
  {
    Powers();
    TopBitOf(0x82F6_3B78, 32);
  }

  lemma ShiftedBit(a: Word, i: nat)
    requires i < 31
    ensures Shift(a)[i] == (if a[0] then a[i + 1] != POLYNOMIAL[i] else a[i + 1])
  {}

  lemma ShiftedTop(a: Word)
    ensures Shift(a)[31] == a[0]
  {
    TopBit();
  }

  /** The polynomial has its top bit, so the bit shifted out can be read off the result. */
  lemma ShiftInjective(a: Word, b: Word)
    requires Shift(a) == Shift(b)
    ensures a == b
  {
    ShiftedTop(a);
    ShiftedTop(b);
    forall i | 0 <= i < 32 ensures a[i] == b[i] {
      if i > 0 {
        ShiftedBit(a, i - 1);
        ShiftedBit(b, i - 1);
      }
    }
  }

  lemma {:induction false} ShiftsInjective(a: Word, b: Word, n: nat)
    requires Shifts(a, n) == Shifts(b, n)
    ensures a == b
  {
    if n > 0 {
      ShiftInjective(Shifts(a, n - 1), Shifts(b, n - 1));
      ShiftsInjective(a, b, n - 1);
    }
  }

  lemma WideInjective(a: u8, b: u8)
    requires Wide(a) == Wide(b)
    ensures a == b
  {
    assert Wide(a)[..8] == Bits(a, 8) && Wide(b)[..8] == Bits(b, 8);
    assert Pow2(8) == 0x100;
    NumberOfBits(a, 8);
    NumberOfBits(b, 8);
  }

  lemma XorCancels(c: Word, d: Word, x: Word, y: Word)
    ensures Xor(c, x) == Xor(c, y) ==> x == y
    ensures Xor(c, x) == Xor(d, x) ==> c == d
  {
    if Xor(c, x) == Xor(c, y) {
      forall i | 0 <= i < 32 ensures x[i] == y[i] { assert Xor(c, x)[i] == Xor(c, y)[i]; }
    }
    if Xor(c, x) == Xor(d, x) {
      forall i | 0 <= i < 32 ensures c[i] == d[i] { assert Xor(c, x)[i] == Xor(d, x)[i]; }
    }
  }

  /** Absorbing a byte loses neither the register nor the byte. */
  lemma AbsorbInjective(c: Word, d: Word, x: u8, y: u8)
    ensures Absorb(c, x) == Absorb(d, x) ==> c == d
    ensures Absorb(c, x) == Absorb(c, y) ==> x == y
  {
    if Absorb(c, x) == Absorb(d, x) {
      ShiftsInjective(Xor(c, Wide(x)), Xor(d, Wide(x)), 8);
      XorCancels(c, d, Wide(x), Wide(x));
    }
    if Absorb(c, x) == Absorb(c, y) {
      ShiftsInjective(Xor(c, Wide(x)), Xor(c, Wide(y)), 8);
      XorCancels(c, c, Wide(x), Wide(y));
      WideInjective(x, y);
    }
  }

  lemma {:induction false} RegisterInjective(c: Word, d: Word, data: Bytes)
    requires Register(c, data) == Register(d, data)
    ensures c == d
  {
    if data != [] {
      var init, last := data[..|data| - 1], data[|data| - 1];
      AbsorbInjective(Register(c, init), Register(d, init), last, last);
      RegisterInjective(c, d, init);
    }
  }

  /** The two strings differ in exactly the byte at `i`. */
  ghost predicate DifferOnlyAt(x: Bytes, y: Bytes, i: nat) {
    |x| == |y| && i < |x| && x[i] != y[i] && forall j :: 0 <= j < |x| && j != i ==> x[j] == y[j]
  }

  lemma RegisterAround(c: Word, before: Bytes, b: u8, after: Bytes)
    ensures Register(c, before + [b] + after) == Register(Absorb(Register(c, before), b), after)
  {
    RegisterConcat(c, before + [b], after);
    assert (before + [b])[..|before|] == before;
  }

  /** Changing one byte always changes the checksum. */
  lemma OneByteDetected(x: Bytes, y: Bytes, i: nat, seed: Word)
    requires DifferOnlyAt(x, y, i)
    ensures Checksum(x, seed) != Checksum(y, seed)
  {
    var before, after, c := x[..i], x[i + 1..], Register(Complement(seed), x[..i]);
    assert x == before + [x[i]] + after;
    assert y == before + [y[i]] + after;
    RegisterAround(Complement(seed), before, x[i], after);
    RegisterAround(Complement(seed), before, y[i], after);
    if Checksum(x, seed) == Checksum(y, seed) {
      ComplementTwice(Register(Complement(seed), x));
      ComplementTwice(Register(Complement(seed), y));
      RegisterInjective(Absorb(c, x[i]), Absorb(c, y[i]), after);
      AbsorbInjective(c, c, x[i], y[i]);
    }
  }

  lemma OneByteChangesCrc(x: Bytes, y: Bytes, i: nat)
    requires DifferOnlyAt(x, y, i)
    ensures Crc(x) != Crc(y)
  {
    OneByteDetected(x, y, i, NO_SEED);
    if Crc(x) == Crc(y) { NumberInjective(Checksum(x, NO_SEED), Checksum(y, NO_SEED)); }
  }
}
