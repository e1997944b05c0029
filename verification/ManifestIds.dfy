/** Manifest identifiers: u64 values as fixed-width, zero-padded decimal strings. */
module ManifestIds {
  import opened LexOrder
  import opened MachineIntegers

  const WIDTH: nat := 20

  datatype Result<+T> = Ok(value: T) | Malformed | Overflow

  predicate IsDigit(c: char) { '0' <= c <= '9' }

  function DigitChar(d: nat): (c: char)
    requires d < 10
    ensures IsDigit(c)
  {
    '0' + d as char
  }

  function DigitValue(c: char): (d: nat)
    requires IsDigit(c)
    ensures d < 10
  {
    (c - '0') as nat
  }

  /** The decimal digits without leading zeros. */
  function Digits(n: nat): string {
    if n < 10 then [DigitChar(n)] else Digits(n / 10) + [DigitChar(n % 10)]
  }

  function Zeros(n: nat): string { if n == 0 then "" else Zeros(n - 1) + "0" }

  /** Zero-padding never truncates. */
  function FormatId(value: nat): string {
    var ds := Digits(value);
    if |ds| >= WIDTH then ds else Zeros(WIDTH - |ds|) + ds
  }

  predicate AllDigits(s: string) { forall i :: 0 <= i < |s| ==> IsDigit(s[i]) }

  function Value(s: string): nat
    requires AllDigits(s)
  {
    if s == "" then 0 else Value(s[..|s| - 1]) * 10 + DigitValue(s[|s| - 1])
  }

  function ParseId(s: string): Result<nat> {
    if |s| != WIDTH || !AllDigits(s) then Malformed
    else if Value(s) > U64_MAX then Overflow
    else Ok(Value(s))
  }

  function NextId(previous: string): Result<string> {
    match ParseId(previous)
    case Ok(v) => if v == U64_MAX then Overflow else Ok(FormatId(v + 1))
    case Malformed => Malformed
    case Overflow => Overflow
  }

  // ------------------------------------------------------------------
  // Fixed-width digits
  // ------------------------------------------------------------------

  function Pow10(w: nat): (p: nat)
    ensures p > 0
  {
    if w == 0 then 1 else 10 * Pow10(w - 1)
  }

  /** Exactly `w` digits, the low ones of `n`. */
  function Fixed(n: nat, w: nat): string
    decreases w
  {
    if w == 0 then "" else Fixed(n / 10, w - 1) + [DigitChar(n % 10)]
  }

  lemma {:induction false} FixedShape(n: nat, w: nat)
    ensures |Fixed(n, w)| == w && AllDigits(Fixed(n, w))
    decreases w
  {
    if w > 0 {
      FixedShape(n / 10, w - 1);
    }
  }

  lemma {:induction false} FixedZero(w: nat)
    ensures Fixed(0, w) == Zeros(w)
  {
    if w > 0 {
      FixedZero(w - 1);
    }
  }

  /** Padding the digits of a number that fits gives its fixed-width digits. */
  lemma {:induction false} PaddedIsFixed(n: nat, w: nat)
    requires w > 0 && n < Pow10(w)
    ensures |Digits(n)| <= w && Zeros(w - |Digits(n)|) + Digits(n) == Fixed(n, w)
    decreases w
  {
    if n < 10 {
      FixedZero(w - 1);
    } else {
      assert w > 1;
      PaddedIsFixed(n / 10, w - 1);
      var ds := Digits(n / 10);
      assert Zeros(w - 1 - |ds|) + (ds + [DigitChar(n % 10)]) == (Zeros(w - 1 - |ds|) + ds) + [DigitChar(n % 10)];
    }
  }

  lemma U64Fits()
    ensures U64_MAX < Pow10(WIDTH)
  {
    assert Pow10(4) == 10000;
    assert Pow10(8) == 10000_0000;
    assert Pow10(12) == 10000_0000_0000;
    assert Pow10(16) == 10000_0000_0000_0000;
    assert Pow10(20) == 10000_0000_0000_0000_0000;
  }

  lemma FormatIsFixed(v: nat)
    requires v <= U64_MAX
    ensures FormatId(v) == Fixed(v, WIDTH)
  {
    U64Fits();
    PaddedIsFixed(v, WIDTH);
    if |Digits(v)| == WIDTH {
      assert Zeros(0) + Digits(v) == Digits(v);
    }
  }

  lemma {:induction false} ValueOfFixed(n: nat, w: nat)
    requires n < Pow10(w)
    ensures AllDigits(Fixed(n, w)) && Value(Fixed(n, w)) == n
    decreases w
  {
    if w > 0 {
      FixedShape(n, w);
      ValueOfFixed(n / 10, w - 1);
      assert Fixed(n, w)[..|Fixed(n, w)| - 1] == Fixed(n / 10, w - 1);
    }
  }

  lemma {:induction false} FixedOfValue(s: string)
    requires AllDigits(s)
    ensures Fixed(Value(s), |s|) == s
    decreases |s|
  {
    if s != "" {
      FixedOfValue(s[..|s| - 1]);
      assert s == s[..|s| - 1] + [s[|s| - 1]];
    }
  }

  /** Equal-length strings compare by their prefixes first, then by the last character. */
  lemma {:induction false} LessSnoc(a: string, b: string, x: char, y: char)
    requires |a| == |b|
    ensures Less(a + [x], b + [y]) <==> Less(a, b) || (a == b && x < y)
    decreases |a|
  {
    var (s, t) := (a + [x], b + [y]);
    if a == "" {
      assert s == [x] && t == [y];
      assert s[1..] == "" && t[1..] == "";
    } else {
      assert s[1..] == a[1..] + [x] && t[1..] == b[1..] + [y];
      LessSnoc(a[1..], b[1..], x, y);
      assert a == [a[0]] + a[1..] && b == [b[0]] + b[1..];
    }
  }

  lemma {:induction false} FixedOrder(m: nat, n: nat, w: nat)
    requires m < Pow10(w) && n < Pow10(w)
    ensures Less(Fixed(m, w), Fixed(n, w)) <==> m < n
    decreases w
  {
    if w > 0 {
      FixedShape(m / 10, w - 1);
      FixedShape(n / 10, w - 1);
      LessSnoc(Fixed(m / 10, w - 1), Fixed(n / 10, w - 1), DigitChar(m % 10), DigitChar(n % 10));
      FixedOrder(m / 10, n / 10, w - 1);
      ValueOfFixed(m / 10, w - 1);
      ValueOfFixed(n / 10, w - 1);
    }
  }

  // ------------------------------------------------------------------
  // Main results
  // ------------------------------------------------------------------

  /** Every u64 formats to exactly 20 digits that parse back to it. */
  lemma ParseOfFormat(v: nat)
    requires v <= U64_MAX
    ensures |FormatId(v)| == 20 && AllDigits(FormatId(v)) && ParseId(FormatId(v)) == Ok(v)
  {
    U64Fits();
    FormatIsFixed(v);
    FixedShape(v, WIDTH);
    ValueOfFixed(v, WIDTH);
  }

  /** A string parses exactly when it is the formatted form of some u64; twenty other digits are too large. */
  lemma ParseIffFormatted(s: string, v: nat)
    ensures ParseId(s) == Ok(v) <==> v <= U64_MAX && s == FormatId(v)
    ensures ParseId(s) == Malformed <==> !(|s| == 20 && forall i :: 0 <= i < 20 ==> '0' <= s[i] <= '9')
  {
    if ParseId(s) == Ok(v) {
      FormatIsFixed(v);
      FixedOfValue(s);
    }
    if v <= U64_MAX {
      ParseOfFormat(v);
    }
  }

  /** Identifiers sort as strings the way they sort as numbers. */
  lemma IdOrder(a: nat, b: nat)
    requires a <= U64_MAX && b <= U64_MAX
    ensures Less(FormatId(a), FormatId(b)) <==> a < b
  {
    U64Fits();
    FormatIsFixed(a);
    FormatIsFixed(b);
    FixedOrder(a, b, WIDTH);
  }

  /**
   The successor of a well-formed identifier is the next number, larger in both orders;
   only the last one has none.
   */
  lemma NextIdIsNext(previous: string)
    ensures match ParseId(previous)
            case Ok(v) =>
              if v == U64_MAX then NextId(previous) == Overflow
              else NextId(previous).Ok? && ParseId(NextId(previous).value) == Ok(v + 1)
                   && Less(previous, NextId(previous).value)
            case Malformed => NextId(previous) == Malformed
            case Overflow => NextId(previous) == Overflow
  {
    if ParseId(previous).Ok? {
      var v := ParseId(previous).value;
      ParseIffFormatted(previous, v);
      if v < U64_MAX {
        ParseOfFormat(v + 1);
        IdOrder(v, v + 1);
      }
    }
  }

  /** On well-formed identifiers the string order and the numeric order agree. */
  lemma ParsedOrder(a: string, b: string)
    requires ParseId(a).Ok? && ParseId(b).Ok?
    ensures AtMost(a, b) <==> ParseId(a).value <= ParseId(b).value
  {
    var (m, n) := (ParseId(a).value, ParseId(b).value);
    ParseIffFormatted(a, m);
    ParseIffFormatted(b, n);
    IdOrder(m, n);
  }
}
