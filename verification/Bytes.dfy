/** Bytes, little-endian numbers and pieces of a file at a place. */
module Bytes {
  type Byte = x: int | 0 <= x < 256

  type Data = seq<Byte>

  /** n in k bytes, lowest first. What does not fit is lost. */
  function Le(n: nat, k: nat): (r: Data)
    ensures |r| == k
  {
    if k == 0 then [] else [n % 256] + Le(n / 256, k - 1)
  }

  function Number(b: Data): nat {
    if b == [] then 0 else b[0] + 256 * Number(b[1..])
  }

  function Limit(k: nat): (r: nat)
    ensures r >= 1
  {
    if k == 0 then 1 else 256 * Limit(k - 1)
  }

  lemma Limits()
    ensures Limit(2) == 0x1_0000 && Limit(4) == 0x1_0000_0000
  {
    assert Limit(1) == 256;
    assert Limit(3) == 256 * Limit(2);
  }

  lemma {:induction false} NumberOfLe(n: nat, k: nat)
    requires n < Limit(k)
    ensures Number(Le(n, k)) == n
  {
    if k > 0 {
      NumberOfLe(n / 256, k - 1);
      assert Le(n, k)[1..] == Le(n / 256, k - 1);
    }
  }

  /** The lowest byte is first. */
  lemma LowestFirst(n: nat)
    ensures Le(n, 2) == [n % 256, n / 256 % 256]
    ensures Le(n, 4) == [n % 256, n / 256 % 256, n / 0x1_0000 % 256, n / 0x100_0000 % 256]
  {
    assert Le(n, 2) == [n % 256] + Le(n / 256, 1) && Le(n / 256, 1) == [n / 256 % 256] + [];
    var a, b, c := n / 256, n / 256 / 256, n / 256 / 256 / 256;
    assert b == n / 0x1_0000 && c == n / 0x100_0000;
    assert Le(c, 1) == [c % 256] + [] && Le(b, 2) == [b % 256] + Le(c, 1) && Le(a, 3) == [a % 256] + Le(b, 2);
    assert Le(n, 4) == [n % 256] + Le(a, 3);
  }

  /** The number in k bytes at i. */
  function Read(b: Data, i: nat, k: nat): nat
    requires i + k <= |b|
  {
    Number(b[i..i + k])
  }

  /** s is in b at i. */
  predicate At(b: Data, i: nat, s: Data) {
    i + |s| <= |b| && b[i..i + |s|] == s
  }

  lemma AtSplit(b: Data, i: nat, s: Data, t: Data)
    ensures At(b, i, s + t) <==> At(b, i, s) && At(b, i + |s|, t)
  {
    if At(b, i, s + t) {
      assert b[i..i + |s|] == b[i..i + |s| + |t|][..|s|] == (s + t)[..|s|] == s;
      assert b[i + |s|..i + |s| + |t|] == b[i..i + |s| + |t|][|s|..] == (s + t)[|s|..] == t;
    }
  }

  lemma ReadLe(b: Data, i: nat, n: nat, k: nat)
    requires At(b, i, Le(n, k)) && n < Limit(k)
    ensures Read(b, i, k) == n
  {
    NumberOfLe(n, k);
  }
}
