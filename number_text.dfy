/** How the C++ standard library reads a number out of text: `stream >> d` for a
    `double` (the stream extraction the scene decoders loop over) and for the
    integer types, as libstdc++'s `num_get` does it in the "C" locale. Numbers
    are exact reals here; the rounding of decimal text to a double is not
    modelled. */
module NumberText {
  import opened Results

  /** The characters `isspace` accepts in the "C" locale. */
  predicate IsSpace(c: char) {
    c == ' ' || c == '\t' || c == '\n' || c == '\U{B}' || c == '\U{C}' || c == '\r'
  }

  predicate IsSign(c: char) { c == '+' || c == '-' }

  /** Digits of base 8, 10 or 16 (either case for the letters). */
  predicate IsDigitIn(c: char, base: nat) {
    if base == 16 then '0' <= c <= '9' || 'a' <= c <= 'f' || 'A' <= c <= 'F'
    else if base == 8 then '0' <= c <= '7'
    else '0' <= c <= '9'
  }

  predicate IsDigit(c: char) { IsDigitIn(c, 10) }

  function DigitValue(c: char): nat {
    if '0' <= c <= '9' then c as int - '0' as int
    else if 'a' <= c <= 'f' then c as int - 'a' as int + 10
    else if 'A' <= c <= 'F' then c as int - 'A' as int + 10
    else 0
  }

  /** The first position from `k` on where `s` has no whitespace (or its end). */
  function SpaceEnd(s: string, k: nat): (e: nat)
    ensures k <= e && (k <= |s| ==> e <= |s|)
    ensures e < |s| ==> !IsSpace(s[e])
    decreases |s| - k
  {
    if k < |s| && IsSpace(s[k]) then SpaceEnd(s, k + 1) else k
  }

  /** Nothing but whitespace from position `k` of `s` on. */
  predicate SpacesFrom(s: string, k: nat)
    decreases |s| - k
  {
    k >= |s| || (IsSpace(s[k]) && SpacesFrom(s, k + 1))
  }

  function Pow10(k: nat): (p: nat)
    ensures p >= 1
  {
    if k == 0 then 1 else 10 * Pow10(k - 1)
  }

  /** A number read from a text, and the position just after it. */
  datatype Lexeme = Lexeme(value: real, end: nat)

  /** The digits of a number read so far, with at most one decimal point among
      them: all the digits as one integer, how many of them follow the point,
      how many digits there are, and how many characters they took. */
  datatype Mantissa = Mantissa(whole: nat, scale: nat, digits: nat, length: nat)

  /** The value of the digits read, with the decimal point put back. */
  function MantissaValue(m: Mantissa): real {
    m.whole as real / Pow10(m.scale) as real
  }

  /** Reads digits, and a decimal point if none was taken yet (`point`), one
      character at a time from position `k` of `s`, after what `m` holds. */
  function MantissaFrom(s: string, k: nat, point: bool, m: Mantissa): (r: Mantissa)
    ensures m.length <= r.length && (k <= |s| ==> r.length <= m.length + (|s| - k))
    ensures m.digits <= r.digits && r.digits - m.digits <= r.length - m.length
    decreases |s| - k
  {
    if k < |s| && IsDigit(s[k]) then
      MantissaFrom(s, k + 1, point, Mantissa(m.whole * 10 + DigitValue(s[k]),
                                             if point then m.scale + 1 else m.scale,
                                             m.digits + 1, m.length + 1))
    else if k < |s| && s[k] == '.' && !point then
      MantissaFrom(s, k + 1, true, m.(length := m.length + 1))
    else m
  }

  /** Reads digits of base `base` from position `k` of `s`, after `count`
      digits of value `acc`: the value of all of them and how many there are. */
  function DigitsFrom(s: string, k: nat, base: nat, acc: nat, count: nat): (r: (nat, nat))
    ensures count <= r.1 && (k <= |s| ==> r.1 <= count + (|s| - k))
    decreases |s| - k
  {
    if k < |s| && IsDigitIn(s[k], base) then
      DigitsFrom(s, k + 1, base, acc * base + DigitValue(s[k]), count + 1)
    else (acc, count)
  }

  function Signed(negative: bool, x: real): real {
    if negative then -x else x
  }

  /** `m` times ten to the power `e`. */
  function Scale(m: real, e: int): real {
    if e < 0 then m / Pow10(-e) as real else m * Pow10(e) as real
  }

  /** `stream >> d` for a double, at position `k` of the text and once
      leading whitespace is skipped. The extraction takes, greedily, an
      optional sign, digits with at most one decimal point, and, once a digit
      has been seen, an exponent marker `e` or `E` with an optional sign and
      digits; the text taken must then be a complete `strtod` number (at least
      one mantissa digit, and at least one exponent digit after an `e`), or
      the extraction fails (None). */
  function ScanReal(s: string, k: nat): (r: Option<Lexeme>)
    ensures r.Some? ==> k < r.value.end <= |s| && !IsSpace(s[k])
  {
    var i := if k < |s| && IsSign(s[k]) then k + 1 else k;
    var m := MantissaFrom(s, i, false, Mantissa(0, 0, 0, 0));
    var v := Signed(i == k + 1 && s[k] == '-', MantissaValue(m));
    var e := i + m.length;
    if m.digits == 0 then None
    else if e < |s| && (s[e] == 'e' || s[e] == 'E') then ScanScaled(v, s, e)
    else Some(Lexeme(v, e))
  }

  /** The number `v`, read up to position `k` of `s` where an exponent marker
      stands, scaled by the exponent that follows the marker: an optional sign
      and at least one digit, or the extraction fails. */
  function ScanScaled(v: real, s: string, k: nat): (r: Option<Lexeme>)
    requires k < |s|
    ensures r.Some? ==> k < r.value.end <= |s|
  {
    var j := k + 1;
    var sign := if j < |s| && IsSign(s[j]) then 1 else 0;
    var (e, c) := DigitsFrom(s, j + sign, 10, 0, 0);
    if c == 0 then None
    else Some(Lexeme(Scale(v, if sign == 1 && s[j] == '-' then 0 - e else e), j + sign + c))
  }

  /** An integer read from the front of a text: its sign, its magnitude and
      how many characters it took. */
  datatype IntLexeme = IntLexeme(negative: bool, magnitude: nat, length: nat)

  /** `stream >> n` for an integer type on a stream whose base field is unset
      (yaml-cpp clears `std::ios::dec` before reading): an optional sign, then
      `0x`/`0X` and hexadecimal digits, or `0` and octal digits, or decimal
      digits. `0x` with no hexadecimal digit after it fails. */
  function ScanInt(s: string): (r: Option<IntLexeme>)
    ensures r.Some? ==> 0 < r.value.length <= |s|
  {
    var i := if s != [] && IsSign(s[0]) then 1 else 0;
    var negative := i == 1 && s[0] == '-';
    if i < |s| && s[i] == '0' then
      if i + 1 < |s| && (s[i + 1] == 'x' || s[i + 1] == 'X') then
        var (v, h) := DigitsFrom(s, i + 2, 16, 0, 0);
        if h == 0 then None else Some(IntLexeme(negative, v, i + 2 + h))
      else
        var (v, o) := DigitsFrom(s, i + 1, 8, 0, 0);
        Some(IntLexeme(negative, v, i + 1 + o))
    else
      var (v, d) := DigitsFrom(s, i, 10, 0, 0);
      if d == 0 then None else Some(IntLexeme(negative, v, i + d))
  }

  // ---------------------------------------------------------------------
  // Decimal text of integers, used to state what reading numbers back gives.

  function DigitChar(d: nat): (c: char)
    requires d < 10
    ensures IsDigit(c) && DigitValue(c) == d
  {
    ('0' as int + d) as char
  }

  /** The shortest decimal text of a natural number. */
  function NatText(n: nat): (r: string)
    ensures r != []
    ensures forall i | 0 <= i < |r| :: IsDigit(r[i])
  {
    if n < 10 then [DigitChar(n)] else NatText(n / 10) + [DigitChar(n % 10)]
  }

  /** The decimal text of an integer, with a leading `-` when it is negative. */
  function IntText(i: int): (r: string)
    ensures r != [] && (IsDigit(r[0]) || r[0] == '-')
  {
    if i < 0 then "-" + NatText(-i) else NatText(i)
  }

  /** Integers written out with one space between them. */
  function Join(xs: seq<int>): string {
    if xs == [] then ""
    else if |xs| == 1 then IntText(xs[0])
    else IntText(xs[0]) + " " + Join(xs[1..])
  }

  function Reals(xs: seq<int>): (r: seq<real>)
    ensures |r| == |xs|
    ensures forall i | 0 <= i < |xs| :: r[i] == xs[i] as real
  {
    if xs == [] then [] else [xs[0] as real] + Reals(xs[1..])
  }

  /** The integer value of decimal digits `d` read after digits of value `acc`. */
  function Accumulate(acc: nat, d: string): nat
    decreases |d|
  {
    if d == [] then acc else Accumulate(acc * 10 + DigitValue(d[0]), d[1..])
  }

  lemma {:induction false} AccumulateAppend(acc: nat, d: string, c: char)
    ensures Accumulate(acc, d + [c]) == Accumulate(acc, d) * 10 + DigitValue(c)
    decreases |d|
  {
    if d != [] {
      assert (d + [c])[1..] == d[1..] + [c];
      AccumulateAppend(acc * 10 + DigitValue(d[0]), d[1..], c);
    }
  }

  lemma {:induction false} AccumulateOfNatText(n: nat)
    ensures Accumulate(0, NatText(n)) == n
  {
    if n >= 10 {
      AccumulateOfNatText(n / 10);
      AccumulateAppend(0, NatText(n / 10), DigitChar(n % 10));
    }
  }

  /** Decimal digits from position `k` up to position `e`, where a character
      that continues no number (or the end) stands, read as one integer. */
  lemma {:induction false} MantissaOfDigits(s: string, k: nat, e: nat, m: Mantissa)
    requires k <= e <= |s|
    requires forall i | k <= i < e :: IsDigit(s[i])
    requires e == |s| || (!IsDigit(s[e]) && s[e] != '.')
    requires m.scale == 0
    ensures MantissaFrom(s, k, false, m)
         == Mantissa(Accumulate(m.whole, s[k..e]), 0, m.digits + (e - k), m.length + (e - k))
    decreases e - k
  {
    if k < e {
      assert s[k..e][0] == s[k] && s[k..e][1..] == s[k + 1..e];
      MantissaOfDigits(s, k + 1, e, Mantissa(m.whole * 10 + DigitValue(s[k]), 0, m.digits + 1, m.length + 1));
    }
  }

  /** Decimal digits from position `k` up to position `e`, where a character
      that is no decimal digit (or the end) stands, read as one integer. */
  lemma {:induction false} DigitsOfDecimal(s: string, k: nat, e: nat, acc: nat, count: nat)
    requires k <= e <= |s|
    requires forall i | k <= i < e :: IsDigit(s[i])
    requires e == |s| || !IsDigit(s[e])
    ensures DigitsFrom(s, k, 10, acc, count) == (Accumulate(acc, s[k..e]), count + (e - k))
    decreases e - k
  {
    if k < e {
      assert s[k..e][0] == s[k] && s[k..e][1..] == s[k + 1..e];
      DigitsOfDecimal(s, k + 1, e, acc * 10 + DigitValue(s[k]), count + 1);
    }
  }

  /** The decimal text of a positive number does not start with `0`, so an
      integer extraction reads it in base ten. */
  lemma {:induction false} NatTextHead(n: nat)
    requires n > 0
    ensures NatText(n)[0] != '0'
  {
    if n >= 10 {
      NatTextHead(n / 10);
      assert NatText(n)[0] == NatText(n / 10)[0];
    }
  }

  /** Round trip: an integer extraction reads the decimal text of an integer
      back as its sign and magnitude, taking the whole text. */
  lemma {:induction false} ScanIntOfIntText(x: int)
    ensures ScanInt(IntText(x)) == Some(IntLexeme(x < 0, if x < 0 then -x else x, |IntText(x)|))
  {
    var s := IntText(x);
    var n: nat := if x < 0 then -x else x;
    var i := if x < 0 then 1 else 0;
    assert s[i..] == NatText(n);
    AccumulateOfNatText(n);
    if n == 0 {
      assert s == "0";
    } else {
      NatTextHead(n);
      assert s[i] == NatText(n)[0];
      assert s[i..|s|] == NatText(n);
      DigitsOfDecimal(s, i, |s|, 0, 0);
    }
  }

  /** An optional minus sign at position `k`, then decimal digits up to
      position `e`, where the text ends or whitespace follows: one number. */
  lemma {:induction false} ScanRealOfSignedDigits(s: string, k: nat, i: nat, e: nat, negative: bool)
    requires i == (if negative then k + 1 else k) && i < e <= |s|
    requires negative ==> s[k] == '-'
    requires !negative ==> !IsSign(s[k])
    requires forall j | i <= j < e :: IsDigit(s[j])
    requires e == |s| || IsSpace(s[e])
    ensures ScanReal(s, k) == Some(Lexeme(Signed(negative, Accumulate(0, s[i..e]) as real), e))
  {
    MantissaOfDigits(s, i, e, Mantissa(0, 0, 0, 0));
    assert MantissaValue(MantissaFrom(s, i, false, Mantissa(0, 0, 0, 0))) == Accumulate(0, s[i..e]) as real;
  }

  /** The decimal text of an integer at position `k` of `s`, followed by the
      end of the text or by whitespace, reads as that integer and ends where
      its text ends. */
  lemma {:induction false} ScanRealOfIntText(s: string, k: nat, x: int)
    requires k + |IntText(x)| <= |s| && s[k..k + |IntText(x)|] == IntText(x)
    requires k + |IntText(x)| == |s| || IsSpace(s[k + |IntText(x)|])
    ensures ScanReal(s, k) == Some(Lexeme(x as real, k + |IntText(x)|))
  {
    var t := IntText(x);
    var e := k + |t|;
    var n: nat := if x < 0 then -x else x;
    var i := if x < 0 then k + 1 else k;
    IntTextAt(s, k, x);
    ScanRealOfSignedDigits(s, k, i, e, x < 0);
    AccumulateOfNatText(n);
  }

  /** Where the text of an integer stands: its sign, then its digits. */
  lemma {:induction false} IntTextAt(s: string, k: nat, x: int)
    requires k + |IntText(x)| <= |s| && s[k..k + |IntText(x)|] == IntText(x)
    ensures var i := if x < 0 then k + 1 else k;
      var e := k + |IntText(x)|;
      i < e && s[i..e] == NatText(if x < 0 then -x else x)
      && (x < 0 ==> s[k] == '-') && (x >= 0 ==> !IsSign(s[k]))
      && forall j | i <= j < e :: IsDigit(s[j])
  {
    var t := IntText(x);
    var e := k + |t|;
    var n: nat := if x < 0 then -x else x;
    var i := if x < 0 then k + 1 else k;
    assert s[k] == t[0];
    if x < 0 {
      assert t == "-" + NatText(n);
      assert s[k..e][1..] == s[i..e];
    }
    assert forall j | i <= j < e :: s[j] == NatText(n)[j - i];
  }

  /** A joined list of integers starts with a digit or a minus sign. */
  lemma {:induction false} JoinStart(xs: seq<int>)
    requires xs != []
    ensures |Join(xs)| > 0 && (Join(xs)[0] == '-' || IsDigit(Join(xs)[0]))
  {
    if |xs| > 1 {
      assert Join(xs) == IntText(xs[0]) + " " + Join(xs[1..]);
    }
  }
}
