/** The string operations of Go's standard library that the signature code uses. */
module Text {
  import opened Wrappers
  import opened KeyNames

  /** Where c occurs first, or the length of s. */
  function Index(s: Bytes, c: char): (i: nat)
    ensures i <= |s| && c !in s[..i] && (i < |s| ==> s[i] == c)
  {
    if s == "" || s[0] == c then 0 else 1 + Index(s[1..], c)
  }

  lemma IndexIs(a: Bytes, c: char, b: Bytes)
    requires c !in a
    ensures Index(Joined(a, c, b), c) == |a|
  {
    var s := Joined(a, c, b);
    var i := Index(s, c);
    assert s[|a|] == c;
    assert forall k :: 0 <= k < |a| ==> s[k] == a[k];
    assert forall k :: 0 <= k < i ==> s[..i][k] == s[k];
  }

  /** strings.SplitN(s, c, 2): what is before the first c, and what is after it. */
  datatype Halves = Halves(before: Bytes, after: Option<Bytes>)

  function Cut(s: Bytes, c: char): Halves {
    var i := Index(s, c);
    if i == |s| then Halves(s, None) else Halves(s[..i], Some(s[i + 1..]))
  }

  lemma CutJoined(a: Bytes, c: char, b: Bytes)
    requires c !in a
    ensures Cut(Joined(a, c, b), c) == Halves(a, Some(b))
  {
    IndexIs(a, c, b);
    var s := Joined(a, c, b);
    assert s[..|a|] == a && s[|a| + 1..] == b;
  }

  /** strings.Split for a one-byte separator. */
  function Split(s: Bytes, c: char): (parts: seq<Bytes>)
    ensures parts != []
    decreases |s|
  {
    var i := Index(s, c);
    if i == |s| then [s] else [s[..i]] + Split(s[i + 1..], c)
  }

  /** strings.Join */
  function Join(parts: seq<Bytes>, sep: Bytes): Bytes {
    if |parts| == 0 then ""
    else if |parts| == 1 then parts[0]
    else parts[0] + sep + Join(parts[1..], sep)
  }

  /** Splitting undoes joining exactly when no part contains the separator. */
  lemma {:induction false} SplitJoin(parts: seq<Bytes>, c: char)
    requires parts != []
    ensures (forall p :: p in parts ==> c !in p) <==> Split(Join(parts, [c]), c) == parts
    decreases |parts|
  {
    var s := Join(parts, [c]);
    if |parts| == 1 {
      if c !in s {
        var i := Index(s, c);
        assert i == |s|;
      }
    } else {
      var rest := parts[1..];
      SplitJoin(rest, c);
      assert s == Joined(parts[0], c, Join(rest, [c]));
      assert parts == [parts[0]] + rest;
      if c !in parts[0] {
        IndexIs(parts[0], c, Join(rest, [c]));
        assert s[..|parts[0]|] == parts[0] && s[|parts[0]| + 1..] == Join(rest, [c]);
        assert Split(s, c) == [parts[0]] + Split(Join(rest, [c]), c);
        assert Split(s, c)[1..] == Split(Join(rest, [c]), c);
      } else {
        assert c !in s[..Index(s, c)];
        assert parts[0] in parts;
      }
    }
  }

  /** Joining undoes splitting, and no part contains the separator. */
  lemma {:induction false} JoinSplit(s: Bytes, c: char)
    ensures Join(Split(s, c), [c]) == s && forall p :: p in Split(s, c) ==> c !in p
    decreases |s|
  {
    var i := Index(s, c);
    if i < |s| {
      JoinSplit(s[i + 1..], c);
      var rest := Split(s[i + 1..], c);
      assert Split(s, c) == [s[..i]] + rest && ([s[..i]] + rest)[1..] == rest;
      assert s == s[..i] + [c] + s[i + 1..];
    } else {
      assert s[..i] == s;
    }
  }

  lemma JoinInjective(a: seq<Bytes>, b: seq<Bytes>, c: char)
    requires a != [] && b != [] && Join(a, [c]) == Join(b, [c])
    requires forall p :: p in a || p in b ==> c !in p
    ensures a == b
  {
    SplitJoin(a, c);
    SplitJoin(b, c);
  }

  predicate InSet(c: char, cutset: Bytes) {
    c in cutset
  }

  /** strings.TrimRight */
  function TrimRight(s: Bytes, cutset: Bytes): Bytes {
    if s != "" && InSet(s[|s| - 1], cutset) then TrimRight(s[..|s| - 1], cutset) else s
  }

  function TrimLeft(s: Bytes, cutset: Bytes): Bytes {
    if s != "" && InSet(s[0], cutset) then TrimLeft(s[1..], cutset) else s
  }

  function HexDigit(d: nat): char
    requires d < 16
  {
    if d < 10 then '0' + d as char else 'a' + (d - 10) as char
  }

  predicate IsLowerHex(c: char) {
    '0' <= c <= '9' || 'a' <= c <= 'f'
  }

  /** hex.EncodeToString */
  function Hex(s: Bytes): (h: Bytes)
    ensures |h| == 2 * |s| && forall i :: 0 <= i < |h| ==> IsLowerHex(h[i])
  {
    if s == "" then ""
    else [HexDigit(s[0] as int / 16 % 16), HexDigit(s[0] as int % 16)] + Hex(s[1..])
  }

  predicate IsBytes(s: Bytes) {
    forall i :: 0 <= i < |s| ==> s[i] as int < 256
  }

  /** The two digits of each byte, by name. */
  lemma {:induction false} HexIs(s: Bytes, i: nat)
    requires IsBytes(s) && i < |s|
    ensures Hex(s)[2 * i] == "0123456789abcdef"[s[i] as int / 16]
    ensures Hex(s)[2 * i + 1] == "0123456789abcdef"[s[i] as int % 16]
  {
    hide HexDigit;
    HexOf(s);
    if i > 0 {
      HexIs(s[1..], i - 1);
      assert Hex(s)[2 * i] == Hex(s)[2..][2 * (i - 1)] && Hex(s)[2 * i + 1] == Hex(s)[2..][2 * (i - 1) + 1];
    } else {
      HexDigitIs(s[0] as int / 16);
      HexDigitIs(s[0] as int % 16);
    }
  }

  lemma HexOf(s: Bytes)
    requires IsBytes(s) && s != ""
    ensures Hex(s)[0] == HexDigit(s[0] as int / 16) && Hex(s)[1] == HexDigit(s[0] as int % 16)
    ensures Hex(s)[2..] == Hex(s[1..])
  {
    assert s[0] as int / 16 % 16 == s[0] as int / 16;
    hide HexDigit;
  }

  lemma HexDigitIs(d: nat)
    requires d < 16
    ensures HexDigit(d) == "0123456789abcdef"[d]
  {
    if d < 10 { assert HexDigit(d) == "0123456789"[d]; }
  }

  lemma HexDigitInjective(a: nat, b: nat)
    requires a < 16 && b < 16 && HexDigit(a) == HexDigit(b)
    ensures a == b
  {
  }

  lemma {:induction false} HexInjective(a: Bytes, b: Bytes)
    requires IsBytes(a) && IsBytes(b) && Hex(a) == Hex(b)
    ensures a == b
  {
    if a != "" {
      assert |a| == |b|;
      assert Hex(a) == [HexDigit(a[0] as int / 16 % 16), HexDigit(a[0] as int % 16)] + Hex(a[1..]);
      assert Hex(b) == [HexDigit(b[0] as int / 16 % 16), HexDigit(b[0] as int % 16)] + Hex(b[1..]);
      assert Hex(a)[2..] == Hex(a[1..]) && Hex(b)[2..] == Hex(b[1..]);
      HexDigitInjective(a[0] as int / 16 % 16, b[0] as int / 16 % 16);
      HexDigitInjective(a[0] as int % 16, b[0] as int % 16);
      assert a[0] as int == b[0] as int;
      HexInjective(a[1..], b[1..]);
      assert a == [a[0]] + a[1..] && b == [b[0]] + b[1..];
    }
  }
}
