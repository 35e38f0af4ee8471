/** Percent-encoding as in sections 2.1 and 2.3 of RFC 3986, one byte at a time. */
module UriEncoding {
  import opened Wrappers
  import opened Text

  predicate IsUnreserved(b: char) {
    'A' <= b <= 'Z' || 'a' <= b <= 'z' || '0' <= b <= '9' || b == '-' || b == '_' || b == '.' || b == '~'
  }

  function UpperHexDigit(d: nat): char
    requires d < 16
  {
    if d < 10 then '0' + d as char else 'A' + (d - 10) as char
  }

  function EncodeByte(b: char, encodeSlash: bool): Bytes {
    if IsUnreserved(b) || (b == '/' && !encodeSlash) then [b]
    else ['%', UpperHexDigit(b as int / 16 % 16), UpperHexDigit(b as int % 16)]
  }

  function Encoded(s: Bytes, encodeSlash: bool): Bytes {
    if s == "" then "" else EncodeByte(s[0], encodeSlash) + Encoded(s[1..], encodeSlash)
  }

  lemma {:induction false} EncodedSnoc(s: Bytes, b: char, encodeSlash: bool)
    ensures Encoded(s + [b], encodeSlash) == Encoded(s, encodeSlash) + EncodeByte(b, encodeSlash)
  {
    if s == "" {
      assert Encoded([b][1..], encodeSlash) == "";
    } else {
      assert (s + [b])[1..] == s[1..] + [b];
      EncodedSnoc(s[1..], b, encodeSlash);
    }
  }

  method UriEncode(s: Bytes, encodeSlash: bool) returns (buf: Bytes)
    ensures buf == Encoded(s, encodeSlash)
  {
    buf := "";
    var i := 0;
    while i < |s|
      invariant 0 <= i <= |s| && buf == Encoded(s[..i], encodeSlash)
    {
      assert s[..i + 1] == s[..i] + [s[i]];
      EncodedSnoc(s[..i], s[i], encodeSlash);
      buf := buf + EncodeByte(s[i], encodeSlash);
      i := i + 1;
    }
    assert s[..i] == s;
  }

  function UpperHexValue(c: char): nat {
    if '0' <= c <= '9' then (c - '0') as nat else if 'A' <= c <= 'F' then (c - 'A') as nat + 10 else 0
  }

  /** Reads percent-encoded text back. */
  function Unescaped(s: Bytes): Bytes {
    if s == "" then ""
    else if s[0] == '%' && |s| >= 3 then
      [(16 * UpperHexValue(s[1]) + UpperHexValue(s[2])) as char] + Unescaped(s[3..])
    else [s[0]] + Unescaped(s[1..])
  }

  lemma UnescapeByte(b: char, encodeSlash: bool, rest: Bytes)
    requires b as int < 256
    ensures Unescaped(EncodeByte(b, encodeSlash) + rest) == [b] + Unescaped(rest)
  {
    var e := EncodeByte(b, encodeSlash);
    assert (e + rest)[|e|..] == rest;
    if |e| == 3 {
      assert UpperHexValue(e[1]) == b as int / 16 && UpperHexValue(e[2]) == b as int % 16;
    }
  }

  /** Encoding can be undone, so it keeps different byte strings apart. */
  lemma {:induction false} EncodingRoundTrip(s: Bytes, encodeSlash: bool)
    requires IsBytes(s)
    ensures Unescaped(Encoded(s, encodeSlash)) == s
  {
    if s != "" {
      EncodingRoundTrip(s[1..], encodeSlash);
      UnescapeByte(s[0], encodeSlash, Encoded(s[1..], encodeSlash));
      assert s == [s[0]] + s[1..];
    }
  }

  lemma EncodingInjective(s: Bytes, t: Bytes, encodeSlash: bool)
    requires IsBytes(s) && IsBytes(t)
    ensures Encoded(s, encodeSlash) == Encoded(t, encodeSlash) <==> s == t
  {
    EncodingRoundTrip(s, encodeSlash);
    EncodingRoundTrip(t, encodeSlash);
  }

  /** The only bytes of encoded text; in particular there is no '&' and no '='. */
  lemma {:induction false} EncodedAlphabet(s: Bytes, encodeSlash: bool)
    ensures forall i :: 0 <= i < |Encoded(s, encodeSlash)| ==>
      var c := Encoded(s, encodeSlash)[i]; IsUnreserved(c) || c == '%' || (c == '/' && !encodeSlash)
  {
    if s != "" {
      EncodedAlphabet(s[1..], encodeSlash);
    }
  }

  // ---- What encoded text is, without saying how it is made ----

  const UPPER := "ABCDEFGHIJKLMNOPQRSTUVWXYZ"
  const LOWER := "abcdefghijklmnopqrstuvwxyz"
  const DIGITS := "0123456789"

  /** The unreserved characters of section 2.3 of RFC 3986. */
  const UNRESERVED := UPPER + LOWER + DIGITS + "-._~"

  lemma UppersAre(b: char)
    ensures 'A' <= b <= 'Z' <==> b in UPPER
  {
    if 'A' <= b <= 'Z' { assert UPPER[b as int - 'A' as int] == b; }
  }

  lemma LowersAre(b: char)
    ensures 'a' <= b <= 'z' <==> b in LOWER
  {
    if 'a' <= b <= 'z' { assert LOWER[b as int - 'a' as int] == b; }
  }

  lemma DigitsAre(b: char)
    ensures '0' <= b <= '9' <==> b in DIGITS
  {
    if '0' <= b <= '9' { assert DIGITS[b as int - '0' as int] == b; }
  }

  lemma UnreservedAre(b: char)
    ensures IsUnreserved(b) <==> b in UNRESERVED
  {
    hide UPPER;
    hide LOWER;
    hide DIGITS;
    UppersAre(b);
    LowersAre(b);
    DigitsAre(b);
    assert b in "-._~" <==> b == '-' || b == '_' || b == '.' || b == '~' by {
      assert "-._~"[0] == '-' && "-._~"[1] == '.' && "-._~"[2] == '_' && "-._~"[3] == '~';
    }
  }

  predicate IsUpperHex(c: char) {
    '0' <= c <= '9' || 'A' <= c <= 'F'
  }

  /**
   Only unreserved characters and those in `kept` stand for themselves; each '%' is followed
   by two upper-case hexadecimal digits, of a byte that is neither unreserved nor in `plain`.
   */
  predicate Escaped(e: Bytes, kept: Bytes, plain: Bytes) {
    forall i :: 0 <= i < |e| ==> IsUnreserved(e[i]) || e[i] in kept || IsEscape(e[i..], plain)
  }

  predicate IsEscape(e: Bytes, plain: Bytes) {
    && |e| >= 3 && e[0] == '%' && IsUpperHex(e[1]) && IsUpperHex(e[2])
    && var b := (16 * UpperHexValue(e[1]) + UpperHexValue(e[2])) as char;
    !IsUnreserved(b) && b !in plain
  }

  lemma EscapedConcat(a: Bytes, b: Bytes, kept: Bytes, plain: Bytes)
    requires Escaped(a, kept, plain) && Escaped(b, kept, plain)
    ensures Escaped(a + b, kept, plain)
  {
    var e := a + b;
    forall i | 0 <= i < |e| ensures IsUnreserved(e[i]) || e[i] in kept || IsEscape(e[i..], plain) {
      if i < |a| {
        assert e[i..] == a[i..] + b;
      } else {
        assert e[i..] == b[i - |a|..];
      }
    }
  }

  lemma EscapedMore(e: Bytes, kept: Bytes, more: Bytes, plain: Bytes)
    requires Escaped(e, kept, plain) && forall c :: c in kept ==> c in more
    ensures Escaped(e, more, plain)
  {
  }

  function KeptSlash(encodeSlash: bool): Bytes {
    if encodeSlash then "" else "/"
  }

  lemma ByteEscaped(b: char, encodeSlash: bool)
    requires b as int < 256
    ensures Escaped(EncodeByte(b, encodeSlash), KeptSlash(encodeSlash), KeptSlash(encodeSlash))
  {
    var e, kept := EncodeByte(b, encodeSlash), KeptSlash(encodeSlash);
    if |e| == 3 {
      assert UpperHexValue(e[1]) == b as int / 16 && UpperHexValue(e[2]) == b as int % 16;
      assert e[0..] == e && IsEscape(e, kept);
      assert IsUnreserved(e[1]) && IsUnreserved(e[2]);
    }
  }

  lemma {:induction false} EncodedIsEscaped(s: Bytes, encodeSlash: bool)
    requires IsBytes(s)
    ensures Escaped(Encoded(s, encodeSlash), KeptSlash(encodeSlash), KeptSlash(encodeSlash))
  {
    if s != "" {
      var kept := KeptSlash(encodeSlash);
      EncodedIsEscaped(s[1..], encodeSlash);
      ByteEscaped(s[0], encodeSlash);
      EscapedConcat(EncodeByte(s[0], encodeSlash), Encoded(s[1..], encodeSlash), kept, kept);
    }
  }

  lemma EscapedTail(e: Bytes, n: nat, kept: Bytes, plain: Bytes)
    requires Escaped(e, kept, plain) && n <= |e|
    ensures Escaped(e[n..], kept, plain)
  {
    forall i | 0 <= i < |e| - n
      ensures IsUnreserved(e[n..][i]) || e[n..][i] in kept || IsEscape(e[n..][i..], plain)
    {
      assert e[n..][i..] == e[n + i..] && e[n..][i] == e[n + i];
    }
  }

  lemma {:induction false} EscapedIsEncoded(e: Bytes, encodeSlash: bool)
    requires Escaped(e, KeptSlash(encodeSlash), KeptSlash(encodeSlash))
    ensures Encoded(Unescaped(e), encodeSlash) == e
    decreases |e|
  {
    if e != "" {
      var kept := KeptSlash(encodeSlash);
      assert e[0..] == e;
      var n := if e[0] == '%' then 3 else 1;
      assert IsUnreserved(e[0]) || e[0] in kept || IsEscape(e, kept);
      EscapedTail(e, n, kept, kept);
      EscapedIsEncoded(e[n..], encodeSlash);
      var s := Unescaped(e);
      assert s[1..] == Unescaped(e[n..]);
      OneEscape(e, s[0], n, encodeSlash);
      assert e == e[..n] + e[n..];
    }
  }

  lemma OneEscape(e: Bytes, b: char, n: nat, encodeSlash: bool)
    requires e != "" && n == (if e[0] == '%' then 3 else 1) && n <= |e|
    requires IsUnreserved(e[0]) || e[0] in KeptSlash(encodeSlash) || IsEscape(e, KeptSlash(encodeSlash))
    requires b == if n == 3 then (16 * UpperHexValue(e[1]) + UpperHexValue(e[2])) as char else e[0]
    ensures EncodeByte(b, encodeSlash) == e[..n]
  {
    if n == 3 {
      HexDigitBack(e[1]);
      HexDigitBack(e[2]);
      TwoDigits(UpperHexValue(e[1]), UpperHexValue(e[2]));
      hide UpperHexValue;
      hide UpperHexDigit;
    }
  }

  lemma HexDigitBack(c: char)
    requires IsUpperHex(c)
    ensures UpperHexValue(c) < 16 && UpperHexDigit(UpperHexValue(c)) == c
  {
  }

  lemma TwoDigits(high: nat, low: nat)
    requires high < 16 && low < 16
    ensures (16 * high + low) / 16 % 16 == high && (16 * high + low) % 16 == low
  {
  }

  /** The encoding of s is the one escaped text that reads back as s. */
  lemma EncodingIff(e: Bytes, s: Bytes, encodeSlash: bool)
    requires IsBytes(s)
    ensures e == Encoded(s, encodeSlash) <==>
      Escaped(e, KeptSlash(encodeSlash), KeptSlash(encodeSlash)) && Unescaped(e) == s
  {
    EncodedIsEscaped(s, encodeSlash);
    EncodingRoundTrip(s, encodeSlash);
    if Escaped(e, KeptSlash(encodeSlash), KeptSlash(encodeSlash)) { EscapedIsEncoded(e, encodeSlash); }
  }
}
