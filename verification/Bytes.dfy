/** Bytes, network byte order, and the concatenation of chunks. */
module Bytes {

  type byte = x: int | 0 <= x < 256

  const U32_SIZE := 0x1_0000_0000
  const I32_MAX := 0x7fff_ffff

  /** The `n` low-order base-256 digits of `u`, most significant first. */
  function Digits(u: nat, n: nat): (s: seq<byte>)
    ensures |s| == n
  {
    if n == 0 then [] else Digits(u / 256, n - 1) + [u % 256]
  }

  function Value(s: seq<byte>): (r: nat) {
    if s == [] then 0 else Value(s[..|s| - 1]) * 256 + s[|s| - 1]
  }

  function Pow256(n: nat): (r: nat) {
    if n == 0 then 1 else 256 * Pow256(n - 1)
  }

  lemma {:induction false} ValueBound(s: seq<byte>)
    ensures Value(s) < Pow256(|s|)
  {
    if s != [] {
      ValueBound(s[..|s| - 1]);
    }
  }

  /** Writing and reading `n` digits are inverse, for every width. */
  lemma {:induction false} ReadAfterWrite(u: nat, n: nat)
    requires u < Pow256(n)
    ensures Value(Digits(u, n)) == u
  {
    if n > 0 {
      var s := Digits(u, n);
      ReadAfterWrite(u / 256, n - 1);
      assert s[..n - 1] == Digits(u / 256, n - 1);
    }
  }

  lemma {:induction false} WriteAfterRead(s: seq<byte>)
    ensures Digits(Value(s), |s|) == s
  {
    if s != [] {
      WriteAfterRead(s[..|s| - 1]);
      assert Value(s) / 256 == Value(s[..|s| - 1]);
    }
  }

  lemma Pow256Of4()
    ensures Pow256(4) == U32_SIZE
  {
    assert Pow256(2) == 0x1_0000;
  }

  /** Four big-endian bytes of an unsigned 32-bit value. */
  function BigEndian32(u: nat): (s: seq<byte>)
    requires u < U32_SIZE
    ensures |s| == 4
  {
    Digits(u, 4)
  }

  function FromBigEndian32(s: seq<byte>): (u: nat)
    requires |s| >= 4
    ensures u < U32_SIZE
  {
    ValueBound(s[..4]);
    Pow256Of4();
    Value(s[..4])
  }

  /** The value an `int32_t` with the bit pattern `u` has. */
  function AsInt32(u: nat): (i: int)
    requires u < U32_SIZE
    ensures (0 <= i) == (u <= 0x7fff_ffff) && (i == u || i == u - 0x1_0000_0000)
  {
    if u <= I32_MAX then u else u - U32_SIZE
  }

  /** The bit pattern of `static_cast<int32_t>(n)`: the value modulo 2^32. */
  function Truncate32(n: nat): (u: nat)
    ensures u < U32_SIZE
    ensures n < U32_SIZE ==> u == n
  {
    n % U32_SIZE
  }

  /** Writing and reading a 32-bit integer are inverse, in both directions. */
  lemma BigEndian32Inverse(u: nat, s: seq<byte>)
    requires u < U32_SIZE && |s| == 4
    ensures FromBigEndian32(BigEndian32(u)) == u
    ensures BigEndian32(FromBigEndian32(s)) == s
  {
    Pow256Of4();
    ReadAfterWrite(u, 4);
    WriteAfterRead(s);
    assert s[..4] == s && BigEndian32(u)[..4] == BigEndian32(u);
  }

  /** The most significant byte comes first. */
  lemma BigEndianBytes(u: nat)
    requires u < U32_SIZE
    ensures BigEndian32(u)[0] == u / 16777216 && BigEndian32(u)[1] == u / 65536 % 256
    ensures BigEndian32(u)[2] == u / 256 % 256 && BigEndian32(u)[3] == u % 256
  {
    var d2, d3 := Digits(u / 256 / 256, 2), Digits(u / 256, 3);
    assert Digits(u, 4) == d3 + [u % 256];
    assert d3 == d2 + [u / 256 % 256];
    assert d2 == Digits(u / 256 / 256 / 256, 1) + [u / 256 / 256 % 256];
    assert Digits(u / 256 / 256 / 256, 1) == Digits(u / 256 / 256 / 256 / 256, 0) + [u / 256 / 256 / 256 % 256];
    assert u / 256 / 256 == u / 65536 && u / 256 / 256 / 256 == u / 16777216;
  }

  lemma BigEndianValue(s: seq<byte>)
    requires |s| >= 4
    ensures FromBigEndian32(s) == s[0] as int * 16777216 + s[1] as int * 65536 + s[2] as int * 256 + s[3]
  {
    var t := s[..4];
    assert t[..3] == s[..3] && t[..3][..2] == s[..2] && t[..3][..2][..1] == s[..1] && s[..1][..0] == [];
    assert Value(s[..1]) == s[0] as int;
    assert Value(s[..2]) == s[0] as int * 256 + s[1];
    assert Value(s[..3]) == Value(s[..2]) * 256 + s[2];
  }

  /** Only the first four bytes are read. */
  lemma FirstFour(s: seq<byte>, t: seq<byte>)
    requires 4 <= |s| <= |t| && s[..4] == t[..4]
    ensures FromBigEndian32(t) == FromBigEndian32(s)
  {
  }

  lemma ConcatAssociative<T>(a: seq<T>, b: seq<T>, c: seq<T>)
    ensures (a + b) + c == a + (b + c)
  {
  }

  lemma HeadAndTail<T>(a: seq<T>, b: seq<T>)
    requires a != []
    ensures [a[0]] + (a[1..] + b) == a + b
  {
  }

  function Flatten<T>(chunks: seq<seq<T>>): (s: seq<T>) {
    if chunks == [] then [] else chunks[0] + Flatten(chunks[1..])
  }

  lemma {:induction false} FlattenAppend<T>(xs: seq<seq<T>>, ys: seq<seq<T>>)
    ensures Flatten(xs + ys) == Flatten(xs) + Flatten(ys)
  {
    if xs == [] {
      assert xs + ys == ys;
    } else {
      FlattenAppend(xs[1..], ys);
      assert (xs + ys)[1..] == xs[1..] + ys;
      ConcatAssociative(xs[0], Flatten(xs[1..]), Flatten(ys));
    }
  }

  lemma FlattenSnoc<T>(xs: seq<seq<T>>, y: seq<T>)
    ensures Flatten(xs + [y]) == Flatten(xs) + y
  {
    FlattenAppend(xs, [y]);
    assert [y][1..] == [];
    assert Flatten([y]) == y + Flatten([]);
  }
}
