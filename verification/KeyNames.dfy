/** Names made of two parts with a separator byte between them. */
module KeyNames {
  import opened Wrappers

  const NUL: char := '\0'

  function Joined(a: Bytes, sep: char, b: Bytes): Bytes {
    a + [sep] + b
  }

  /** If no first part has the separator, it is where the name's first separator is. */
  lemma JoinedPrefix(sep: char, a: Bytes, prefix: Bytes, b: Bytes, k: Bytes)
    requires sep !in a && sep !in b
    ensures Joined(a, sep, prefix) <= Joined(b, sep, k) <==> a == b && prefix <= k
  {
    var p, n := Joined(a, sep, prefix), Joined(b, sep, k);
    if p <= n {
      assert p[|a|] == sep && n[|b|] == sep;
      assert forall i :: 0 <= i < |a| ==> n[i] == p[i] == a[i];
      assert forall i :: 0 <= i < |b| ==> n[i] == b[i];
      assert |a| == |b|;
      assert p[..|a|] == a && n[..|b|] == b;
      assert p[|b| + 1..] == prefix && n[|b| + 1..] == k;
    }
    if a == b && prefix <= k {
      assert n == p + k[|prefix|..];
    }
  }

  lemma JoinedInjective(sep: char, a1: Bytes, b1: Bytes, a2: Bytes, b2: Bytes)
    requires sep !in a1 && sep !in a2
    ensures Joined(a1, sep, b1) == Joined(a2, sep, b2) <==> a1 == a2 && b1 == b2
  {
    JoinedPrefix(sep, a1, b1, a2, b2);
    JoinedPrefix(sep, a2, b2, a1, b1);
  }

  lemma CancelPrefix(base: Bytes, a: Bytes, b: Bytes)
    ensures base + a <= base + b <==> a <= b
    ensures base + a == base + b <==> a == b
  {
    assert (base + a)[|base|..] == a && (base + b)[|base|..] == b;
    if a <= b {
      assert base + b == base + a + b[|a|..];
    }
  }

  function Pair(bucket: Bytes, key: Bytes): Bytes {
    Joined(bucket, NUL, key)
  }

  predicate NulFree(s: Bytes) {
    NUL !in s
  }

  /** With NUL-free buckets, a name can be taken apart into bucket and key. */
  lemma PairPrefix(bucket: Bytes, prefix: Bytes, b: Bytes, k: Bytes)
    requires NulFree(bucket) && NulFree(b)
    ensures Pair(bucket, prefix) <= Pair(b, k) <==> bucket == b && prefix <= k
  {
    JoinedPrefix(NUL, bucket, prefix, b, k);
  }

  lemma PairInjective(b1: Bytes, k1: Bytes, b2: Bytes, k2: Bytes)
    requires NulFree(b1) && NulFree(b2)
    ensures Pair(b1, k1) == Pair(b2, k2) <==> b1 == b2 && k1 == k2
  {
    JoinedInjective(NUL, b1, k1, b2, k2);
  }
}
