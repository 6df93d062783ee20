/**
 The C library calls that both ends of the protocol use: `snprintf` into a bounded buffer,
 and the conversions %s, with a width, and %zu of `sscanf`.
 */
module Scanning {
  import opened Types

  predicate IsSpace(c: char) {
    c == ' ' || 9 <= c as int <= 13
  }

  predicate IsDigit(c: char) {
    '0' <= c <= '9'
  }

  /** A non-empty word without white space, as %s reads one. */
  ghost predicate IsToken(s: string) {
    s != "" && forall i :: 0 <= i < |s| ==> !IsSpace(s[i])
  }

  /** `snprintf` into `size` bytes, one of which is the terminator. */
  function Snprintf(size: nat, s: string): (r: string)
    requires size > 0
    ensures |r| < size
    ensures r == s <==> |s| < size
  {
    if |s| < size then s else s[..size - 1]
  }

  // ---------- %s ----------

  function SkipSpaces(s: string): (r: string)
    ensures |r| <= |s|
    ensures r != "" ==> !IsSpace(r[0])
  {
    if s != "" && IsSpace(s[0]) then SkipSpaces(s[1..]) else s
  }

  /** How many characters %`width`s takes from the start of `s`. */
  function WordLength(s: string, width: nat): (n: nat)
    ensures n <= |s| && n <= width
  {
    if s == "" || width == 0 || IsSpace(s[0]) then 0 else 1 + WordLength(s[1..], width - 1)
  }

  /** The word and what follows it, or nothing at the end of the input. */
  function ScanWord(s: string, width: nat): Option<(string, string)> {
    var t := SkipSpaces(s);
    if t == "" then None else Some((t[..WordLength(t, width)], t[WordLength(t, width)..]))
  }

  lemma {:induction false} WordLengthOfToken(w: string, tail: string, width: nat)
    requires forall i :: 0 <= i < |w| ==> !IsSpace(w[i])
    requires |w| <= width && (tail == "" || IsSpace(tail[0]))
    ensures WordLength(w + tail, width) == |w|
    decreases |w|
  {
    if w == "" {
      assert w + tail == tail;
    } else {
      assert (w + tail)[1..] == w[1..] + tail;
      WordLengthOfToken(w[1..], tail, width - 1);
    }
  }

  /** A token after a space is read back whole when it fits the width. */
  lemma ScanToken(w: string, tail: string, width: nat)
    requires IsToken(w) && |w| <= width && (tail == "" || IsSpace(tail[0]))
    ensures ScanWord(" " + w + tail, width) == Some((w, tail))
  {
    var s := " " + w + tail;
    assert s[1..] == w + tail;
    assert SkipSpaces(s) == SkipSpaces(w + tail) == w + tail;
    WordLengthOfToken(w, tail, width);
    assert (w + tail)[..|w|] == w && (w + tail)[|w|..] == tail;
  }

  /** A token that is longer than the width is cut there. */
  lemma {:induction false} WordLengthOfLongToken(w: string, tail: string, width: nat)
    requires forall i :: 0 <= i < |w| ==> !IsSpace(w[i])
    requires width <= |w|
    ensures WordLength(w + tail, width) == width
    decreases width
  {
    if width > 0 {
      assert (w + tail)[1..] == w[1..] + tail;
      WordLengthOfLongToken(w[1..], tail, width - 1);
    }
  }

  lemma ScanLongToken(w: string, tail: string, width: nat)
    requires IsToken(w) && 0 < width <= |w|
    ensures ScanWord(" " + w + tail, width) == Some((w[..width], w[width..] + tail))
  {
    var s := " " + w + tail;
    assert s[1..] == w + tail;
    assert SkipSpaces(s) == SkipSpaces(w + tail) == w + tail;
    WordLengthOfLongToken(w, tail, width);
    assert (w + tail)[..width] == w[..width] && (w + tail)[width..] == w[width..] + tail;
  }

  // ---------- %zu ----------

  function Digit(d: nat): (c: char)
    requires d < 10
    ensures IsDigit(c) && DigitValue(c) == d
  {
    ('0' as int + d) as char
  }

  function DigitValue(c: char): (d: nat)
    requires IsDigit(c)
    ensures d < 10
  {
    c as int - '0' as int
  }

  /** What printing with %zu produces. */
  function Decimal(n: nat): (s: string)
    ensures s != ""
  {
    if n < 10 then [Digit(n)] else Decimal(n / 10) + [Digit(n % 10)]
  }

  /** The number in the leading digits of `s`, and what follows them. */
  function TakeDigits(s: string, value: nat): (r: (nat, string))
    ensures |r.1| <= |s|
  {
    if s != "" && IsDigit(s[0]) then TakeDigits(s[1..], value * 10 + DigitValue(s[0])) else (value, s)
  }

  const SIZE_MAX: nat := 0xFFFF_FFFF_FFFF_FFFF

  /** A value too large saturates; a minus sign negates within the 64 bits. */
  function Saturate(v: nat, negative: bool): nat {
    if v > SIZE_MAX then SIZE_MAX
    else if negative && v > 0 then SIZE_MAX + 1 - v
    else v
  }

  function ScanSize(s: string): Option<(nat, string)> {
    var t := SkipSpaces(s);
    var signed := t != "" && (t[0] == '-' || t[0] == '+');
    var digits := if signed then t[1..] else t;
    if digits == "" || !IsDigit(digits[0]) then None
    else
      var (v, rest) := TakeDigits(digits, 0);
      Some((Saturate(v, signed && t[0] == '-'), rest))
  }

  lemma {:induction false} DecimalIsDigits(n: nat)
    ensures forall i :: 0 <= i < |Decimal(n)| ==> IsDigit(Decimal(n)[i])
    decreases n
  {
    if n >= 10 {
      DecimalIsDigits(n / 10);
    }
  }

  lemma {:induction false} TakeDecimal(n: nat, tail: string)
    ensures TakeDigits(Decimal(n) + tail, 0) == TakeDigits(tail, n)
    decreases n
  {
    if n < 10 {
      assert (Decimal(n) + tail)[1..] == tail;
    } else {
      var d := [Digit(n % 10)];
      assert Decimal(n) + tail == Decimal(n / 10) + (d + tail);
      TakeDecimal(n / 10, d + tail);
      assert (d + tail)[1..] == tail;
    }
  }

  /** Every size below 2^64 is read back as it was printed. */
  lemma ScanDecimal(n: nat, tail: string)
    requires n <= SIZE_MAX && (tail == "" || !IsDigit(tail[0]))
    ensures ScanSize(" " + Decimal(n) + tail) == Some((n, tail))
  {
    var s := " " + Decimal(n) + tail;
    DecimalIsDigits(n);
    assert s[1..] == Decimal(n) + tail;
    assert IsDigit(Decimal(n)[0]);
    assert SkipSpaces(s) == SkipSpaces(s[1..]) == s[1..];
    TakeDecimal(n, tail);
  }

  /** The number that a string of digits denotes. */
  function Value(s: string): nat
    requires forall i :: 0 <= i < |s| ==> IsDigit(s[i])
  {
    if s == "" then 0 else 10 * Value(s[..|s| - 1]) + DigitValue(s[|s| - 1])
  }

  /** Printing the value of a numeral without leading zeros gives the numeral back. */
  lemma {:induction false} DecimalOfValue(s: string)
    requires s != "" && forall i :: 0 <= i < |s| ==> IsDigit(s[i])
    requires |s| > 1 ==> s[0] != '0'
    ensures Decimal(Value(s)) == s
    ensures |s| > 1 ==> Value(s) >= 10
    ensures s[0] != '0' ==> Value(s) > 0
    decreases |s|
  {
    var n := |s| - 1;
    assert s == s[..n] + [s[n]];
    if n > 0 {
      DecimalOfValue(s[..n]);
      assert Value(s) / 10 == Value(s[..n]) && Value(s) % 10 == DigitValue(s[n]);
    }
  }

  /** The numeral that is printed for a number denotes it. */
  lemma {:induction false} ValueOfDecimal(n: nat)
    ensures (forall i :: 0 <= i < |Decimal(n)| ==> IsDigit(Decimal(n)[i])) && Value(Decimal(n)) == n
    decreases n
  {
    var s := Decimal(n);
    DecimalIsDigits(n);
    if n >= 10 {
      ValueOfDecimal(n / 10);
      assert s[..|s| - 1] == Decimal(n / 10);
    }
  }

  // ---------- In so many words ----------

  /** `isspace` in the C locale: space, tab, newline, vertical tab, form feed, carriage return. */
  lemma SpacesAre(c: char)
    ensures IsSpace(c) <==> c as int in {32, 9, 10, 11, 12, 13}
  {
  }

  lemma DigitsAre(c: char)
    ensures IsDigit(c) <==> exists i :: 0 <= i < 10 && "0123456789"[i] == c
    ensures IsDigit(c) ==> "0123456789"[DigitValue(c)] == c
  {
    if IsDigit(c) {
      assert "0123456789"[c as int - 48] == c;
    }
  }

  /** What `snprintf` leaves is the beginning of the text, as much of it as there is room for. */
  lemma SnprintfCuts(size: nat, s: string)
    requires size > 0
    ensures Snprintf(size, s) <= s
    ensures |Snprintf(size, s)| == if |s| < size then |s| else size - 1
  {
  }

  /**
   %zu of a numeral: what exceeds 2^64 - 1 becomes that, and a minus sign subtracts from
   2^64.
   */
  lemma ScanNumeral(sign: string, n: nat, tail: string)
    requires sign == "" || sign == "+" || sign == "-"
    requires tail == "" || !IsDigit(tail[0])
    ensures ScanSize(" " + (sign + (Decimal(n) + tail))) ==
            Some((if n > 18446744073709551615 then 18446744073709551615
                  else if sign == "-" && n > 0 then 18446744073709551616 - n
                  else n, tail))
  {
    var digits := Decimal(n) + tail;
    var s := " " + (sign + digits);
    DecimalIsDigits(n);
    assert IsDigit(Decimal(n)[0]);
    assert s[1..] == sign + digits;
    assert SkipSpaces(s) == SkipSpaces(s[1..]) == s[1..];
    TakeDecimal(n, tail);
    if sign == "" {
      assert sign + digits == digits;
    } else {
      assert (sign + digits)[1..] == digits;
    }
  }
}
