/** Fixed-width unsigned integers in the machine's byte order, as they appear in wire arrays and in
    shared-memory tables. Both peers are on one machine, so either order must round-trip. */
module NativeBytes {
  type Byte = b: int | 0 <= b < 256

  datatype Endian = Little | Big

  function Pow256(k: nat): (r: nat)
    ensures r > 0
  {
    if k == 0 then 1 else 256 * Pow256(k - 1)
  }

  lemma PowersOf256()
    ensures Pow256(2) == 0x1_0000 && Pow256(4) == 0x1_0000_0000 && Pow256(8) == 0x1_0000_0000_0000_0000
  {
    assert Pow256(1) == 256;
    assert Pow256(2) == 256 * Pow256(1);
    assert Pow256(3) == 256 * Pow256(2);
    assert Pow256(4) == 256 * Pow256(3);
    assert Pow256(5) == 256 * Pow256(4);
    assert Pow256(6) == 256 * Pow256(5);
    assert Pow256(7) == 256 * Pow256(6);
    assert Pow256(8) == 256 * Pow256(7);
  }

  /** `n` in `k` little-endian bytes; higher bytes are cut off, as a narrowing cast does. */
  function LittleBytes(n: nat, k: nat): (r: seq<Byte>)
    ensures |r| == k
  {
    if k == 0 then [] else [n % 256] + LittleBytes(n / 256, k - 1)
  }

  function FromLittle(bytes: seq<Byte>): nat {
    if bytes == [] then 0 else bytes[0] + 256 * FromLittle(bytes[1..])
  }

  function Reverse(bytes: seq<Byte>): (r: seq<Byte>)
    ensures |r| == |bytes|
  {
    if bytes == [] then [] else Reverse(bytes[1..]) + [bytes[0]]
  }

  function ToBytes(e: Endian, n: nat, k: nat): (r: seq<Byte>)
    ensures |r| == k
  {
    if e.Little? then LittleBytes(n, k) else Reverse(LittleBytes(n, k))
  }

  function FromBytes(e: Endian, bytes: seq<Byte>): nat {
    FromLittle(if e.Little? then bytes else Reverse(bytes))
  }

  /** An array of `k`-byte integers, one after the other. */
  function ToArray(e: Endian, ns: seq<nat>, k: nat): (r: seq<Byte>)
    ensures |r| == k * |ns|
  {
    if ns == [] then [] else ToBytes(e, ns[0], k) + ToArray(e, ns[1..], k)
  }

  function FromArray(e: Endian, bytes: seq<Byte>, k: nat): seq<nat>
    requires k > 0
  {
    if |bytes| < k then [] else [FromBytes(e, bytes[..k])] + FromArray(e, bytes[k..], k)
  }

  lemma {:induction false} LittleRoundTrip(n: nat, k: nat)
    ensures FromLittle(LittleBytes(n, k)) == n % Pow256(k)
    decreases k
  {
    if k > 0 {
      LittleRoundTrip(n / 256, k - 1);
      assert LittleBytes(n, k)[1..] == LittleBytes(n / 256, k - 1);
      SplitModulo(n, Pow256(k - 1));
    }
  }

  /** The remainder modulo `256 * m` is the low byte and the remainder of the rest. */
  lemma SplitModulo(n: nat, m: nat)
    requires m > 0
    ensures n % (256 * m) == n % 256 + 256 * ((n / 256) % m)
  {
    var q := n / 256;
    var t := q / m;
    var r := n % 256 + 256 * (q % m);
    assert n == 256 * q + n % 256 && q == m * t + q % m;
    assert n == (256 * m) * t + r by {
      assert 256 * q == 256 * (m * t) + 256 * (q % m);
      assert 256 * (m * t) == (256 * m) * t;
    }
    assert 0 <= r < 256 * m;
    UniqueRemainder(n, 256 * m, t, r);
  }

  lemma UniqueRemainder(n: nat, d: nat, t: nat, r: nat)
    requires d > 0 && r < d && n == d * t + r
    ensures n % d == r
  {
    var u := n / d;
    assert n == d * u + n % d;
    if t < u {
      TimesGrows(d, t, u);
    } else if u < t {
      TimesGrows(d, u, t);
    }
  }

  lemma TimesGrows(d: nat, t: nat, u: nat)
    requires t < u
    ensures d * u >= d * t + d
  {
    assert d * u == d * (t + 1) + d * (u - t - 1);
  }

  lemma {:induction false} ReverseAppend(a: seq<Byte>, x: Byte)
    ensures Reverse(a + [x]) == [x] + Reverse(a)
  {
    if a == [] {
      assert a + [x] == [x];
    } else {
      assert (a + [x])[1..] == a[1..] + [x];
      ReverseAppend(a[1..], x);
    }
  }

  lemma {:induction false} ReverseTwice(a: seq<Byte>)
    ensures Reverse(Reverse(a)) == a
  {
    if a != [] {
      ReverseAppend(Reverse(a[1..]), a[0]);
      ReverseTwice(a[1..]);
    }
  }

  /** Decoding gives the number back when it fits, and its low bytes otherwise. */
  lemma BytesRoundTrip(e: Endian, n: nat, k: nat)
    ensures FromBytes(e, ToBytes(e, n, k)) == n % Pow256(k)
  {
    LittleRoundTrip(n, k);
    ReverseTwice(LittleBytes(n, k));
  }

  lemma SmallModulo(n: nat, m: nat)
    requires n < m
    ensures n % m == n
  {
  }

  lemma FittingRoundTrip(e: Endian, n: nat, k: nat)
    requires n < Pow256(k)
    ensures FromBytes(e, ToBytes(e, n, k)) == n
  {
    BytesRoundTrip(e, n, k);
    SmallModulo(n, Pow256(k));
  }

  lemma {:induction false} ArrayRoundTrip(e: Endian, ns: seq<nat>, k: nat)
    requires k > 0
    ensures |FromArray(e, ToArray(e, ns, k), k)| == |ns|
    ensures forall i | 0 <= i < |ns| :: FromArray(e, ToArray(e, ns, k), k)[i] == ns[i] % Pow256(k)
  {
    if ns != [] {
      var bytes := ToArray(e, ns, k);
      var rest := ToArray(e, ns[1..], k);
      assert bytes == ToBytes(e, ns[0], k) + rest;
      assert bytes[..k] == ToBytes(e, ns[0], k) && bytes[k..] == rest;
      BytesRoundTrip(e, ns[0], k);
      ArrayRoundTrip(e, ns[1..], k);
    }
  }
}
