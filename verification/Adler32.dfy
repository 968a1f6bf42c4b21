/** ADLER32 as RFC 1950 defines it (sections 2.2 and 8.2), and exactly which
    changes to the covered bytes it can miss. */
module Adler32 {
  import opened Bytes

  const MODULUS := 65521

  datatype Sums = Sums(a: nat, b: nat)

  /** One more byte, reducing at once. */
  function Step(p: Sums, d: byte): (r: Sums)
    ensures r.a < MODULUS && r.b < MODULUS
  {
    var a := (p.a + d) % MODULUS;
    Sums(a, (p.b + a) % MODULUS)
  }

  /** The two running sums, reduced after every byte. */
  function Running(s: seq<byte>): (r: Sums)
    ensures r.a < MODULUS && r.b < MODULUS
  {
    if s == [] then Sums(1, 0) else Step(Running(s[..|s| - 1]), s[|s| - 1])
  }

  function Checksum(s: seq<byte>): (u: nat)
    ensures u < U32_SIZE
  {
    Running(s).b * 0x1_0000 + Running(s).a
  }

  /** The same sums without reduction. */
  ghost function Wide(s: seq<byte>): (r: Sums) {
    if s == [] then Sums(1, 0)
    else
      var p := Wide(s[..|s| - 1]);
      Sums(p.a + s[|s| - 1], p.b + p.a + s[|s| - 1])
  }

  lemma ReduceFirst(x: int, y: int)
    ensures (x % MODULUS + y) % MODULUS == (x + y) % MODULUS
  {
    var q := x / MODULUS;
    assert x + y == (x % MODULUS + y) + q * MODULUS;
  }

  function Reduced(w: Sums): (r: Sums) {
    Sums(w.a % MODULUS, w.b % MODULUS)
  }

  lemma StepReduces(w: Sums, d: byte)
    ensures Step(Reduced(w), d) == Reduced(Sums(w.a + d, w.b + w.a + d))
  {
    ReduceFirst(w.a, d);
    ReduceFirst(w.a + d, w.b % MODULUS);
    ReduceFirst(w.b, w.a + d);
  }

  lemma {:induction false} RunningIsWideReduced(s: seq<byte>)
    ensures Running(s) == Reduced(Wide(s))
  {
    if s != [] {
      RunningIsWideReduced(s[..|s| - 1]);
      StepReduces(Wide(s[..|s| - 1]), s[|s| - 1]);
    }
  }

  /** The sum of the bytes. */
  ghost function Sum(s: seq<byte>): (r: nat) {
    if s == [] then 0 else s[0] + Sum(s[1..])
  }

  /** The sum of the bytes, each as often as there are bytes from it on. */
  ghost function Weighted(s: seq<byte>): (r: nat) {
    if s == [] then 0 else |s| * s[0] + Weighted(s[1..])
  }

  lemma {:induction false} OneMoreByte(s: seq<byte>, x: byte)
    ensures Sum(s + [x]) == Sum(s) + x && Weighted(s + [x]) == Weighted(s) + Sum(s) + x
  {
    if s == [] {
      assert (s + [x])[1..] == [];
    } else {
      assert (s + [x])[1..] == s[1..] + [x];
      OneMoreByte(s[1..], x);
      OneMore(|s|, s[0]);
    }
  }

  lemma {:induction false} WideClosedForm(s: seq<byte>)
    ensures Wide(s) == Sums(1 + Sum(s), |s| + Weighted(s))
  {
    if s != [] {
      var front, x := s[..|s| - 1], s[|s| - 1];
      assert s == front + [x];
      WideClosedForm(front);
      OneMoreByte(front, x);
    }
  }

  /** The low half is one more than the sum of the bytes, the high half the length
      and the weighted sum, both modulo 65521. */
  lemma ChecksumClosedForm(s: seq<byte>)
    ensures Checksum(s) % 0x1_0000 == (1 + Sum(s)) % 65521
    ensures Checksum(s) / 0x1_0000 == (|s| + Weighted(s)) % 65521
  {
    RunningIsWideReduced(s);
    WideClosedForm(s);
    Halves(Running(s).b, Running(s).a);
  }

  lemma Halves(high: nat, low: nat)
    requires low < 0x1_0000
    ensures (high * 0x1_0000 + low) % 0x1_0000 == low && (high * 0x1_0000 + low) / 0x1_0000 == high
  {
  }

  lemma SumsOfFour(a: byte, b: byte, c: byte, d: byte)
    ensures Sum([a, b, c, d]) == a as int + b as int + c as int + d as int
    ensures Weighted([a, b, c, d]) == 4 * a + 3 * b + 2 * c + d
  {
    assert [a, b, c, d] == [a, b, c] + [d] && [a, b, c] == [a, b] + [c] && [a, b] == [a] + [b] && [a] == [] + [a];
    OneMoreByte([], a);
    OneMoreByte([a], b);
    OneMoreByte([a, b], c);
    OneMoreByte([a, b, c], d);
  }

  /** The checksum of the RPC codec's tag, "RPC0", alone. */
  lemma ChecksumOfTag(tag: seq<byte>)
    requires tag == [0x52, 0x50, 0x43, 0x30]
    ensures Checksum(tag) == 0x02F2_0116
  {
    SumsOfFour(0x52, 0x50, 0x43, 0x30);
    ChecksumClosedForm(tag);
    FromHalves(Checksum(tag), 0x02F2, 0x0116);
  }

  lemma FromHalves(u: nat, high: nat, low: nat)
    requires u / 0x1_0000 == high && u % 0x1_0000 == low
    ensures u == high * 0x1_0000 + low
  {
  }

  lemma ChecksumDeterminesSums(s: seq<byte>, t: seq<byte>)
    ensures Checksum(s) == Checksum(t) <==> Running(s) == Running(t)
  {
  }

  lemma OneMore(k: int, d: int)
    ensures k * d + d == (k + 1) * d
  {
  }

  /** What changing one byte does to the unreduced sums. */
  lemma {:induction false} WideUpdate(s: seq<byte>, i: nat, x: byte)
    requires i < |s|
    ensures Wide(s[i := x]).a == Wide(s).a + x - s[i]
    ensures Wide(s[i := x]).b == Wide(s).b + (|s| - i) * (x - s[i])
  {
    var n := |s| - 1;
    if i == n {
      assert s[i := x][..n] == s[..n];
    } else {
      assert s[i := x][..n] == s[..n][i := x];
      WideUpdate(s[..n], i, x);
      OneMore(n - i, x - s[i]);
    }
  }

  lemma NotAMultiple(q: nat, d: nat)
    requires 2 <= d <= 255
    ensures q * d != MODULUS
  {
  }

  /** A shift smaller than the modulus always shows in the remainder. */
  lemma ShiftShows(x: nat, d: int)
    requires x + d >= 0 && -MODULUS < d < MODULUS
    ensures (x + d) % MODULUS == x % MODULUS <==> d == 0
  {
    var p, q := (x + d) / MODULUS, x / MODULUS;
    assert d == (p - q) * MODULUS + ((x + d) % MODULUS - x % MODULUS);
  }

  /** Euclid's lemma for the modulus and a factor of at most 255. */
  lemma {:induction false} FactorCancels(k: int, d: nat)
    requires 1 <= d <= 255 && (k * d) % MODULUS == 0
    ensures k % MODULUS == 0
    decreases d
  {
    if d > 1 {
      NotAMultiple(MODULUS / d, d);
      var q, r := MODULUS / d, MODULUS % d;
      var m := k * d / MODULUS;
      assert k * d == m * MODULUS;
      assert k * r == (k - q * m) * MODULUS by {
        assert MODULUS == q * d + r;
        assert k * MODULUS == k * (q * d + r) == q * (k * d) + k * r;
        assert q * (k * d) == q * m * MODULUS;
      }
      FactorCancels(k, r);
    }
  }

  lemma WholeMultiples(b: int, m: int)
    ensures (b + m * MODULUS) % MODULUS == b % MODULUS
  {
  }

  lemma SameRemainder(x: int, y: int)
    requires x % MODULUS == y % MODULUS
    ensures (x - y) % MODULUS == 0
  {
    var m := x / MODULUS - y / MODULUS;
    assert x - y == m * MODULUS;
    WholeMultiples(0, m);
  }

  lemma MultipleVanishes(b: nat, k: nat, d: int)
    requires -255 <= d <= 255 && b + k * d >= 0
    ensures (b + k * d) % MODULUS == b % MODULUS <==> d == 0 || k % MODULUS == 0
  {
    if d != 0 && k % MODULUS == 0 {
      MultipleIsWhole(k, d);
      WholeMultiples(b, k / MODULUS * d);
    } else if d != 0 && (b + k * d) % MODULUS == b % MODULUS {
      MultipleCancels(b, k, d);
    }
  }

  lemma MultipleIsWhole(k: nat, d: int)
    requires k % MODULUS == 0
    ensures k * d == (k / MODULUS * d) * MODULUS
  {
    var m := k / MODULUS;
    assert k == m * MODULUS;
    assert (m * MODULUS) * d == (m * d) * MODULUS;
  }

  lemma MultipleCancels(b: nat, k: nat, d: int)
    requires -255 <= d <= 255 && d != 0 && (b + k * d) % MODULUS == b % MODULUS
    ensures k % MODULUS == 0
  {
    if d > 0 {
      SameRemainder(b + k * d, b);
      FactorCancels(k, d);
    } else {
      SameRemainder(b, b + k * d);
      NegatedProduct(k, d);
      FactorCancels(k, -d);
    }
  }

  lemma NegatedProduct(k: int, d: int)
    ensures k * (-d) == -(k * d)
  {
  }

  /** What changing two bytes does to the unreduced sums. */
  lemma WideUpdateTwice(s: seq<byte>, i: nat, j: nat, x: byte, y: byte)
    requires i < j < |s|
    ensures Wide(s[i := x][j := y]).a == Wide(s).a + (x - s[i]) + (y - s[j])
    ensures (x - s[i]) + (y - s[j]) == 0 ==>
              Wide(s[i := x][j := y]).b == Wide(s).b + (j - i) * (x - s[i])
  {
    WideUpdate(s, i, x);
    WideUpdate(s[i := x], j, y);
    DistancesCancel(|s|, i, j, x - s[i]);
  }

  lemma DistancesCancel(n: int, i: int, j: int, d: int)
    ensures (n - i) * d + (n - j) * (-d) == (j - i) * d
  {
  }

  /** Any change confined to two bytes goes unnoticed exactly when one byte gains
      what the other loses and they lie a multiple of 65521 places apart (or
      nothing changed). */
  lemma TwoByteChangeMissed(s: seq<byte>, i: nat, j: nat, x: byte, y: byte)
    requires i < j < |s|
    ensures Checksum(s[i := x][j := y]) == Checksum(s) <==>
            (x - s[i]) + (y - s[j]) == 0 && (x == s[i] || (j - i) % MODULUS == 0)
  {
    var t := s[i := x][j := y];
    var d, e := x - s[i], y - s[j];
    WideUpdateTwice(s, i, j, x, y);
    RunningIsWideReduced(s);
    RunningIsWideReduced(t);
    ChecksumDeterminesSums(t, s);
    ShiftShows(Wide(s).a, d + e);
    if d + e == 0 {
      MultipleVanishes(Wide(s).b, j - i, d);
    }
  }

  /** No change to a single byte goes unnoticed. */
  lemma OneByteChangeNoticed(s: seq<byte>, i: nat, x: byte)
    requires i < |s| && x != s[i]
    ensures Checksum(s[i := x]) != Checksum(s)
  {
    WideUpdate(s, i, x);
    RunningIsWideReduced(s);
    RunningIsWideReduced(s[i := x]);
    ChecksumDeterminesSums(s[i := x], s);
    ShiftShows(Wide(s).a, x - s[i]);
  }
}
