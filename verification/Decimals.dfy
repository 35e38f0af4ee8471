/** Decimal numerals as fmt.Sprintf prints them with %0wd, for non-negative numbers. */
module Decimals {
  import opened Wrappers
  import opened ByteOrder

  function Digit(d: nat): char
    requires d < 10
  {
    '0' + d as char
  }

  /** %d */
  function Numeral(n: nat): Bytes {
    if n < 10 then [Digit(n)] else Numeral(n / 10) + [Digit(n % 10)]
  }

  function Zeros(w: nat): Bytes {
    seq(w, _ => '0')
  }

  /** %0wd */
  function Padded(w: nat, n: nat): Bytes {
    var s := Numeral(n);
    if |s| < w then Zeros(w - |s|) + s else s
  }

  predicate AllDigits(s: Bytes) {
    forall i :: 0 <= i < |s| ==> '0' <= s[i] <= '9'
  }

  /** The number that a string of digits stands for. */
  function Value(s: Bytes): nat
    requires AllDigits(s)
  {
    if s == "" then 0 else 10 * Value(s[..|s| - 1]) + (s[|s| - 1] - '0') as nat
  }

  function Pow10(w: nat): nat {
    if w == 0 then 1 else 10 * Pow10(w - 1)
  }

  lemma {:induction false} NumeralValue(n: nat)
    ensures AllDigits(Numeral(n)) && Value(Numeral(n)) == n
  {
    if n < 10 {
      assert Numeral(n)[..0] == "";
    } else {
      NumeralValue(n / 10);
      assert Numeral(n)[..|Numeral(n)| - 1] == Numeral(n / 10);
    }
  }

  lemma {:induction false} LeadingZeros(w: nat, s: Bytes)
    requires AllDigits(s)
    ensures AllDigits(Zeros(w) + s) && Value(Zeros(w) + s) == Value(s)
    decreases |s|, w
  {
    if s != "" {
      LeadingZeros(w, s[..|s| - 1]);
      assert (Zeros(w) + s)[..|Zeros(w) + s| - 1] == Zeros(w) + s[..|s| - 1];
    } else if w > 0 {
      LeadingZeros(w - 1, s);
      assert (Zeros(w) + s)[..|Zeros(w) + s| - 1] == Zeros(w - 1) + s;
    }
  }

  /** Reading a padded numeral back gives the number, so padding keeps numbers apart. */
  lemma PaddedValue(w: nat, n: nat)
    ensures AllDigits(Padded(w, n)) && Value(Padded(w, n)) == n
  {
    NumeralValue(n);
    if |Numeral(n)| < w {
      LeadingZeros(w - |Numeral(n)|, Numeral(n));
    }
  }

  lemma {:induction false} NumeralWidth(n: nat, w: nat)
    requires w > 0 && n < Pow10(w)
    ensures |Numeral(n)| <= w
    decreases w
  {
    if n >= 10 {
      NumeralWidth(n / 10, w - 1);
    }
  }

  lemma PaddedWidth(w: nat, n: nat)
    requires w > 0 && n < Pow10(w)
    ensures |Padded(w, n)| == w
  {
    NumeralWidth(n, w);
  }

  /** Numerals of one width sort bytewise as their numbers sort. */
  lemma {:induction false} ByteOrderIsNumeric(s: Bytes, t: Bytes)
    requires |s| == |t| && AllDigits(s) && AllDigits(t)
    ensures Less(s, t) <==> Value(s) < Value(t)
    ensures s == t <==> Value(s) == Value(t)
  {
    if s != "" {
      var a, x, b, y := s[..|s| - 1], s[|s| - 1], t[..|t| - 1], t[|t| - 1];
      assert s == a + [x] && t == b + [y];
      ByteOrderIsNumeric(a, b);
      LastByte(a, x, b, y);
    }
  }

  const MAX_INT64 := 0x7fff_ffff_ffff_ffff

  /** strconv.Itoa */
  function Itoa(n: int): Bytes {
    if n < 0 then "-" + Numeral(-n) else Numeral(n)
  }

  /** strconv.Atoi, for 64-bit integers. */
  function Atoi(s: Bytes): Option<int> {
    var digits := if s != "" && (s[0] == '-' || s[0] == '+') then s[1..] else s;
    if digits == "" || !AllDigits(digits) then None
    else
      var m: int := Value(digits);
      var n := if s[0] == '-' then -m else m;
      if -MAX_INT64 - 1 <= n <= MAX_INT64 then Some(n) else None
  }

  lemma ItoaRoundTrip(n: int)
    ensures Atoi(Itoa(n)) == if -MAX_INT64 - 1 <= n <= MAX_INT64 then Some(n) else None
    ensures Itoa(n) != ""
  {
    var m := if n < 0 then -n else n;
    NumeralValue(m);
    assert Numeral(m) != "" && '0' <= Numeral(m)[0] <= '9';
    if n < 0 {
      assert Itoa(n)[1..] == Numeral(m);
    }
  }
}
