/** Hashes as the 32 bytes the program keeps them in.  The rest of the model reads them as
    numbers; here is why it may. */
module HashBytes {
  import opened Core

  function Pow256(k: nat): nat { if k == 0 then 1 else 256 * Pow256(k - 1) }

  /** The number that bytes spell, most significant first. */
  function FromBytes(bs: seq<Byte>): nat {
    if bs == [] then 0 else FromBytes(bs[..|bs| - 1]) * 256 + bs[|bs| - 1]
  }

  /** A number in `len` bytes, most significant first. */
  function ToBytes(n: nat, len: nat): (bs: seq<Byte>)
    ensures |bs| == len
  {
    if len == 0 then [] else ToBytes(n / 256, len - 1) + [n % 256]
  }

  lemma {:induction false} FromBytesBound(bs: seq<Byte>)
    ensures FromBytes(bs) < Pow256(|bs|)
  {
    if bs != [] {
      FromBytesBound(bs[..|bs| - 1]);
    }
  }

  /** Nothing is lost on the way to bytes and back, as long as the number fits ... */
  lemma {:induction false} NumberRoundTrip(n: nat, len: nat)
    ensures FromBytes(ToBytes(n, len)) == n <==> n < Pow256(len)
  {
    FromBytesBound(ToBytes(n, len));
    if len > 0 {
      NumberRoundTrip(n / 256, len - 1);
      assert ToBytes(n, len)[..len - 1] == ToBytes(n / 256, len - 1);
    }
  }

  /** ... nor on the way from bytes and back. */
  lemma {:induction false} BytesRoundTrip(bs: seq<Byte>)
    ensures ToBytes(FromBytes(bs), |bs|) == bs
  {
    if bs != [] {
      BytesRoundTrip(bs[..|bs| - 1]);
    }
  }

  lemma HashSize()
    ensures Pow256(32) == TWO_256 && Pow256(8) == TWO_64
  {
    assert Pow256(8) == TWO_64;
    assert Pow256(16) == TWO_64 * TWO_64;
    assert Pow256(24) == TWO_64 * TWO_64 * TWO_64;
  }

  lemma {:induction false} FromBytesConcat(a: seq<Byte>, b: seq<Byte>)
    ensures FromBytes(a + b) == FromBytes(a) * Pow256(|b|) + FromBytes(b)
    decreases |b|
  {
    if b == [] {
      assert a + b == a;
    } else {
      var front, last := b[..|b| - 1], b[|b| - 1];
      assert (a + b)[..|a + b| - 1] == a + front;
      FromBytesConcat(a, front);
      Rearrange(FromBytes(a), Pow256(|front|), FromBytes(front), last);
    }
  }

  lemma Rearrange(a: nat, p: nat, f: nat, last: nat)
    ensures (a * p + f) * 256 + last == a * (256 * p) + (f * 256 + last)
  {
  }

  /** The first byte in which two hashes differ decides. */
  lemma FirstDifference(a: seq<Byte>, b: seq<Byte>, i: nat)
    requires |a| == |b| && i < |a| && a[..i] == b[..i] && a[i] < b[i]
    ensures FromBytes(a) < FromBytes(b)
  {
    var p := Pow256(|a| - i - 1);
    assert a == a[..i + 1] + a[i + 1..] && b == b[..i + 1] + b[i + 1..];
    FromBytesConcat(a[..i + 1], a[i + 1..]);
    FromBytesConcat(b[..i + 1], b[i + 1..]);
    FromBytesBound(a[i + 1..]);
    assert a[..i + 1][..i] == b[..i + 1][..i];
    Leading(FromBytes(a[..i + 1]), FromBytes(b[..i + 1]), p, FromBytes(a[i + 1..]));
  }

  lemma Leading(x: nat, y: nat, p: nat, rest: nat)
    requires x < y && rest < p
    ensures x * p + rest < y * p
  {
    assert (x + 1) * p <= y * p;
  }

  /** The byte-by-byte comparison of hashes is the order of numbers. */
  method Lt(a: seq<Byte>, b: seq<Byte>) returns (r: bool)
    requires |a| == |b|
    ensures r <==> FromBytes(a) < FromBytes(b)
  {
    for i := 0 to |a|
      invariant a[..i] == b[..i]
    {
      if a[i] > b[i] {
        FirstDifference(b, a, i);
        return false;
      } else if a[i] < b[i] {
        FirstDifference(a, b, i);
        return true;
      }
    }
    assert a == a[..|a|] == b[..|b|] == b;
    r := false;
  }
}
