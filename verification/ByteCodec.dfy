/** The bounded little-endian byte codec (include/creditfabric/bytes.hpp). */
module ByteCodec {
  import opened Types

  // ---------------------------------------------------------------- little-endian integers

  /** The low `width` bytes of `n`, least significant first. */
  function Le(n: nat, width: nat): (b: Bytes)
    ensures |b| == width
  {
    if width == 0 then [] else [n % 256] + Le(n / 256, width - 1)
  }

  function Un(b: Bytes): nat {
    if b == [] then 0 else b[0] + 256 * Un(b[1..])
  }

  function Pow256(n: nat): (p: nat)
    ensures 0 < p
  {
    if n == 0 then 1 else 256 * Pow256(n - 1)
  }

  lemma {:induction false} UnLe(n: nat, width: nat)
    requires n < Pow256(width)
    ensures Un(Le(n, width)) == n
  {
    if width > 0 {
      UnLe(n / 256, width - 1);
      assert Le(n, width)[1..] == Le(n / 256, width - 1);
    }
  }

  lemma {:induction false} LeUn(b: Bytes)
    ensures Le(Un(b), |b|) == b && Un(b) < Pow256(|b|)
  {
    if b != [] {
      LeUn(b[1..]);
      assert (b[0] + 256 * Un(b[1..])) / 256 == Un(b[1..]);
    }
  }

  lemma {:induction false} UnPush(b: Bytes, x: u8)
    ensures Un(b + [x]) == Un(b) + Pow256(|b|) * x
  {
    if b == [] {
      assert b + [x] == [x];
      assert Un([x]) == x + 256 * Un([]);
    } else {
      UnPush(b[1..], x);
      assert (b + [x])[1..] == b[1..] + [x];
      Distribute(Un(b[1..]), Pow256(|b| - 1), x);
    }
  }

  lemma Distribute(u: nat, p: nat, x: nat)
    ensures 256 * (u + p * x) == 256 * u + (256 * p) * x
  {}

  lemma Widths()
    ensures Pow256(1) == 0x100 && Pow256(2) == 0x1_0000 && Pow256(4) == 0x1_0000_0000
    ensures Pow256(8) == 0x1_0000_0000_0000_0000
  {
    assert Pow256(3) == 0x100_0000;
    assert Pow256(5) == 0x100_0000_0000;
    assert Pow256(7) == 0x100_0000_0000_0000;
  }

  lemma Assoc(x: Bytes, y: Bytes, z: Bytes)
    ensures x + y + z == x + (y + z)
  {}

  lemma Middle(x: Bytes, y: Bytes, z: Bytes)
    ensures (x + y + z)[|x|..|x| + |y|] == y && (x + y + z)[|x| + |y|..] == z && (x + y + z)[..|x|] == x
  {}

  lemma SplitAt(b: Bytes, cut: nat)
    requires cut <= |b|
    ensures b == b[..cut] + b[cut..]
  {}

  /** A slice taken in two steps. */
  lemma TwoSlices(b: Bytes, at: nat, n: nat)
    requires at + n <= |b|
    ensures b[at..][..n] == b[at..at + n]
  {}

  /** A slice of the front of a concatenation. */
  lemma FrontSlice(x: Bytes, y: Bytes, from: nat, to: nat)
    requires from <= to <= |x|
    ensures (x + y)[from..to] == x[from..to]
  {}

  /** A read of `width` bytes from a stream that starts with an encoded integer. */
  lemma LeThen(n: nat, width: nat, rest: Bytes)
    requires n < Pow256(width)
    ensures Un((Le(n, width) + rest)[..width]) == n && (Le(n, width) + rest)[width..] == rest
  {
    UnLe(n, width);
    assert (Le(n, width) + rest)[..width] == Le(n, width);
  }

  // ---------------------------------------------------------------- writer and reader

  class ByteWriter {
    var out: Bytes

    constructor ()
      ensures out == []
    {
      out := [];
    }

    method Integer(value: nat, width: nat)
      modifies this
      ensures out == old(out) + Le(value, width)
    {
      var rest, i := value, 0;
      while i < width
        invariant i <= width && out + Le(rest, width - i) == old(out) + Le(value, width)
      {
        out := out + [rest % 256];
        rest := rest / 256;
        i := i + 1;
      }
    }

    method Raw(data: Bytes)
      modifies this
      ensures out == old(out) + data
    {
      out := out + data;
    }

    /** A length-prefixed string; anything longer than `max` writes nothing at all. */
    method Text(value: Bytes, max: nat) returns (ok: bool)
      modifies this
      ensures ok <==> |value| <= max
      ensures out == if ok then old(out) + (Le(|value|, 4) + value) else old(out)
    {
      if |value| > max { return false; }
      Integer(|value|, 4);
      Raw(value);
      ok := true;
    }
  }

  class ByteReader {
    const data: Bytes
    var position: nat
    var failed: bool

    ghost predicate Valid()
      reads this
    {
      position <= |data|
    }

    function Rest(): Bytes
      requires Valid()
      reads this
    {
      data[position..]
    }

    constructor (data: Bytes)
      ensures Valid() && Rest() == data && !failed
    {
      this.data := data;
      position, failed := 0, false;
    }

    method Ensure(count: nat) returns (ok: bool)
      requires Valid()
      modifies `failed
      ensures ok <==> count <= |Rest()|
      ensures failed == (old(failed) || !ok)
    {
      ok := count <= |data| - position;
      if !ok { failed := true; }
    }

    method Integer(width: nat) returns (ok: bool, value: nat)
      requires Valid()
      modifies this
      ensures Valid() && (ok <==> width <= |old(Rest())|)
      ensures ok ==> value == Un(old(Rest())[..width]) && Rest() == old(Rest())[width..] && failed == old(failed)
      ensures !ok ==> failed && Rest() == old(Rest())
    {
      value := 0;
      ok := Ensure(width);
      if !ok { return; }
      var i: nat, scale: nat := 0, 1;
      while i < width
        invariant position == old(position) && position + width <= |data| && failed == old(failed)
        invariant i <= width && scale == Pow256(i) && value == Un(data[position..position + i])
      {
        UnPush(data[position..position + i], data[position + i]);
        assert data[position..position + i] + [data[position + i]] == data[position..position + (i + 1)];
        value := value + scale * data[position + i];
        scale := 256 * scale;
        i := i + 1;
      }
      assert Rest()[..width] == data[position..position + width];
      position := position + width;
    }

    /** Only 0 and 1 are booleans. */
    method Boolean() returns (ok: bool, value: bool)
      requires Valid()
      modifies this
      ensures Valid() && (ok <==> 1 <= |old(Rest())| && Un(old(Rest())[..1]) < 2)
      ensures ok ==> value == (Un(old(Rest())[..1]) == 1) && Rest() == old(Rest())[1..]
      ensures !ok ==> failed
    {
      value := false;
      var raw: nat;
      ok, raw := Integer(1);
      if !ok { return; }
      if raw > 1 {
        failed := true;
        return false, false;
      }
      value := raw == 1;
    }

    method Skip(count: nat) returns (ok: bool)
      requires Valid()
      modifies this
      ensures Valid() && (ok <==> count <= |old(Rest())|)
      ensures ok ==> Rest() == old(Rest())[count..] && failed == old(failed)
      ensures !ok ==> failed && Rest() == old(Rest())
    {
      ok := Ensure(count);
      if ok { position := position + count; }
    }

    /** A length-prefixed string within both `max` and what remains. */
    method Text(max: nat) returns (ok: bool, value: Bytes)
      requires Valid()
      modifies this
      ensures Valid()
      ensures var b := old(Rest());
              && (ok <==> 4 <= |b| && Un(b[..4]) <= max && Un(b[..4]) <= |b| - 4)
              && (ok ==> value == b[4..4 + Un(b[..4])] && Rest() == b[4 + Un(b[..4])..])
      ensures !ok ==> failed
    {
      value := [];
      ghost var b := Rest();
      var length: nat;
      ok, length := Integer(4);
      if !ok { return; }
      if length > max || length > |data| - position {
        failed := true;
        return false, [];
      }
      value := data[position..position + length];
      position := position + length;
      assert value == b[4..4 + length];
    }

    method Done() returns (done: bool)
      requires Valid()
      ensures done <==> Rest() == []
    {
      done := position == |data|;
    }
  }
}
