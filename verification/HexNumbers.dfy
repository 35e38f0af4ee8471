/** Base-16 numbers as fmt.Sprintf("%x") prints them and strconv.ParseInt(s, 16, 64) reads them. */
module HexNumbers {
  import opened Wrappers
  import opened Text

  /** %x, for a non-negative number. */
  function HexNumeral(n: nat): Bytes {
    if n < 16 then [HexDigit(n)] else HexNumeral(n / 16) + [HexDigit(n % 16)]
  }

  function DigitValue(c: char): Option<nat> {
    if '0' <= c <= '9' then Some((c - '0') as nat)
    else if 'a' <= c <= 'f' then Some((c - 'a') as nat + 10)
    else if 'A' <= c <= 'F' then Some((c - 'A') as nat + 10)
    else None
  }

  /** The number written by the digits, if they all are digits. */
  function Digits(s: Bytes): Option<nat> {
    if s == "" then Some(0)
    else
      var high, low := Digits(s[..|s| - 1]), DigitValue(s[|s| - 1]);
      if high.None? || low.None? then None else Some(16 * high.value + low.value)
  }

  const MAX_INT64 := 0x7fff_ffff_ffff_ffff

  function ParseInt(s: Bytes): Option<int> {
    if s == "" then None
    else
      var negative := s[0] == '-';
      var digits := if s[0] == '-' || s[0] == '+' then s[1..] else s;
      if digits == "" then None
      else
        match Digits(digits)
        case None => None
        case Some(m) =>
          var n: int := m;
          var v := if negative then -n else n;
          if -MAX_INT64 - 1 <= v <= MAX_INT64 then Some(v) else None
  }

  lemma {:induction false} NumeralDigits(n: nat)
    ensures Digits(HexNumeral(n)) == Some(n) && HexNumeral(n) != ""
    ensures forall i :: 0 <= i < |HexNumeral(n)| ==> IsLowerHex(HexNumeral(n)[i])
  {
    if n < 16 {
      assert HexNumeral(n)[..0] == "";
    } else {
      NumeralDigits(n / 16);
      assert HexNumeral(n)[..|HexNumeral(n)| - 1] == HexNumeral(n / 16);
    }
  }

  /** The base is sixteen, in either case of letters; there is a sign but no "0x". */
  lemma SizesAreHexadecimal(c: char, d: char)
    ensures forall a, b :: 0 <= a < 16 && 0 <= b < 16 && c == "0123456789abcdef"[a] && d == "0123456789abcdef"[b] ==>
      ParseInt([c, d]) == Some(16 * a + b)
    ensures ParseInt("10") == Some(16) && ParseInt("fF") == Some(255) && ParseInt("-1") == Some(-1)
    ensures ParseInt("") == None && ParseInt("0x10") == None
  {
    forall a, b | 0 <= a < 16 && 0 <= b < 16 && c == "0123456789abcdef"[a] && d == "0123456789abcdef"[b]
      ensures ParseInt([c, d]) == Some(16 * a + b)
    {
      DigitOf(c, a);
      DigitOf(d, b);
      TwoDigits(c, d);
    }
    TwoDigits('1', '0');
    TwoDigits('f', 'F');
    OneDigit('1');
    assert "-1"[1..] == "1" && "0x10"[..3] == "0x1" && "0x1"[..2] == "0x";
  }

  lemma DigitOf(c: char, a: nat)
    requires a < 16 && c == "0123456789abcdef"[a]
    ensures DigitValue(c) == Some(a) && c != '-' && c != '+'
  {
  }

  lemma OneDigit(c: char)
    ensures Digits([c]) == DigitValue(c)
  {
    assert [c][..0] == "" && Digits("") == Some(0);
  }

  lemma TwoDigits(c: char, d: char)
    ensures var a, b := DigitValue(c), DigitValue(d);
      a.Some? && b.Some? && c != '-' && c != '+' ==> ParseInt([c, d]) == Some(16 * a.value + b.value)
  {
    OneDigit(c);
    assert [c, d][..1] == [c];
  }

  /** Printing a size and reading it back gives the size. */
  lemma SizeRoundTrip(n: nat)
    requires n <= MAX_INT64
    ensures ParseInt(HexNumeral(n)) == Some(n)
  {
    NumeralDigits(n);
    assert IsLowerHex(HexNumeral(n)[0]);
  }
}
