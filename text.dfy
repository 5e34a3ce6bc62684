/**
  The text formatting and parsing the simulator relies on: fmt's `%d` and
  `%0<w>X` verbs, `strconv.Atoi` on a run of decimal digits, and the regular
  expression `[0-9]+` used to pull the ordinal out of a name such as "Tower-7".
 */
module Text {
  import opened Wrappers

  predicate IsDigit(c: char) {
    '0' <= c <= '9'
  }

  predicate AllDigits(s: string) {
    forall k :: 0 <= k < |s| ==> IsDigit(s[k])
  }

  predicate NoDigits(s: string) {
    forall k :: 0 <= k < |s| ==> !IsDigit(s[k])
  }

  /** `s` starts with `prefix` (Go's strings.HasPrefix). */
  predicate HasPrefix(s: string, prefix: string) {
    |prefix| <= |s| && s[..|prefix|] == prefix
  }

  function DigitChar(d: nat): (c: char)
    requires d < 10
  {
    (48 + d) as char
  }

  function DigitValue(c: char): nat
    requires IsDigit(c)
  {
    c as int - 48
  }

  // ---------------------------------------------------------------------------
  // Decimal: fmt's %d and strconv.Atoi
  // ---------------------------------------------------------------------------

  /** The decimal rendering of `n` without leading zeros (fmt's `%d`). */
  function Decimal(n: nat): (s: string)
    ensures |s| > 0 && AllDigits(s)
    decreases n
  {
    if n < 10 then [DigitChar(n)] else Decimal(n / 10) + [DigitChar(n % 10)]
  }

  /** fmt's `%d` for any integer: a minus sign before the magnitude. */
  function SignedDecimal(n: int): (s: string)
    ensures |s| > 0
  {
    if n < 0 then "-" + Decimal(-n) else Decimal(n)
  }

  /** The value of a string of decimal digits (strconv.Atoi on such a string). */
  function ParseDecimal(s: string): nat
    requires AllDigits(s)
    decreases |s|
  {
    if s == [] then 0 else ParseDecimal(s[..|s| - 1]) * 10 + DigitValue(s[|s| - 1])
  }

  lemma {:induction false} ParseDecimalOfDecimal(n: nat)
    ensures ParseDecimal(Decimal(n)) == n
    decreases n
  {
    if n >= 10 {
      var s := Decimal(n);
      assert s[..|s| - 1] == Decimal(n / 10);
      ParseDecimalOfDecimal(n / 10);
    }
  }

  lemma DecimalInjective(a: nat, b: nat)
    requires Decimal(a) == Decimal(b)
    ensures a == b
  {
    ParseDecimalOfDecimal(a);
    ParseDecimalOfDecimal(b);
  }

  // ---------------------------------------------------------------------------
  // The first match of [0-9]+
  // ---------------------------------------------------------------------------

  /** The longest prefix of `s` made of digits. */
  function DigitRun(s: string): (r: string)
    ensures AllDigits(r) && |r| <= |s| && r == s[..|r|]
    ensures |r| < |s| ==> !IsDigit(s[|r|])
  {
    if s != [] && IsDigit(s[0]) then [s[0]] + DigitRun(s[1..]) else []
  }

  /** The leftmost, longest run of digits in `s`: regexp `[0-9]+`, first match. */
  function FirstDigitRun(s: string): (r: Option<string>)
    ensures r.Some? ==> |r.value| > 0 && AllDigits(r.value)
  {
    if s == [] then None
    else if IsDigit(s[0]) then Some(DigitRun(s))
    else FirstDigitRun(s[1..])
  }

  /** The number in a name like "Tower-12" or "Ue-3": Atoi of the first digit run. */
  function Ordinal(name: string): Option<nat> {
    match FirstDigitRun(name)
    case None => None
    case Some(run) => Some(ParseDecimal(run))
  }

  /** `s` contains a decimal digit, so that `[0-9]+` has a first match in it. */
  predicate HasDigit(s: string) {
    exists k :: 0 <= k < |s| && IsDigit(s[k])
  }

  /** A name has an ordinal exactly when it contains a digit. */
  lemma {:induction false} OrdinalExists(s: string)
    ensures Ordinal(s).Some? <==> HasDigit(s)
    decreases |s|
  {
    if s != [] && !IsDigit(s[0]) {
      OrdinalExists(s[1..]);
      if HasDigit(s) {
        var k :| 0 <= k < |s| && IsDigit(s[k]);
        assert s[1..][k - 1] == s[k];
      }
      if HasDigit(s[1..]) {
        var k :| 0 <= k < |s[1..]| && IsDigit(s[1..][k]);
        assert s[k + 1] == s[1..][k];
      }
    } else if s != [] {
      assert IsDigit(s[0]);
    }
  }

  lemma {:induction false} DigitRunOfDigits(s: string)
    requires AllDigits(s)
    ensures DigitRun(s) == s
    decreases |s|
  {
    if s != [] {
      DigitRunOfDigits(s[1..]);
    }
  }

  lemma {:induction false} FirstDigitRunAfterPrefix(prefix: string, digits: string)
    requires NoDigits(prefix) && AllDigits(digits) && digits != []
    ensures FirstDigitRun(prefix + digits) == Some(digits)
    decreases |prefix|
  {
    if prefix == [] {
      assert prefix + digits == digits;
      DigitRunOfDigits(digits);
    } else {
      assert (prefix + digits)[1..] == prefix[1..] + digits;
      FirstDigitRunAfterPrefix(prefix[1..], digits);
    }
  }

  /** A name built as prefix + "%d" of n, with a digit-free prefix, gives back n. */
  lemma OrdinalAfterPrefix(prefix: string, n: nat)
    requires NoDigits(prefix)
    ensures Ordinal(prefix + Decimal(n)) == Some(n)
  {
    FirstDigitRunAfterPrefix(prefix, Decimal(n));
    ParseDecimalOfDecimal(n);
  }

  // ---------------------------------------------------------------------------
  // Upper-case hexadecimal: fmt's %X and %0<w>X
  // ---------------------------------------------------------------------------

  predicate IsHexDigit(c: char) {
    '0' <= c <= '9' || 'A' <= c <= 'F'
  }

  predicate AllHexDigits(s: string) {
    forall k :: 0 <= k < |s| ==> IsHexDigit(s[k])
  }

  function HexChar(d: nat): (c: char)
    requires d < 16
  {
    if d < 10 then (48 + d) as char else (65 + d - 10) as char
  }

  function HexValue(c: char): nat {
    if '0' <= c <= '9' then c as int - 48
    else if 'A' <= c <= 'F' then c as int - 65 + 10
    else 0
  }

  /** The upper-case hexadecimal rendering of `n` without leading zeros (fmt's `%X`). */
  function Hex(n: nat): (s: string)
    ensures |s| > 0 && AllHexDigits(s)
    decreases n
  {
    if n < 16 then [HexChar(n)] else Hex(n / 16) + [HexChar(n % 16)]
  }

  /** The value of a string of hexadecimal digits. */
  function ParseHex(s: string): nat
    decreases |s|
  {
    if s == [] then 0 else ParseHex(s[..|s| - 1]) * 16 + HexValue(s[|s| - 1])
  }

  function Zeros(k: nat): (s: string)
    ensures |s| == k && forall i :: 0 <= i < k ==> s[i] == '0'
  {
    seq(k, _ => '0')
  }

  /** fmt's `%0<width>X`: the hexadecimal rendering, left-padded with zeros to `width`. */
  function FormatHex(n: nat, width: nat): string {
    var digits := Hex(n);
    if |digits| >= width then digits else Zeros(width - |digits|) + digits
  }

  lemma {:induction false} ParseHexOfHex(n: nat)
    ensures ParseHex(Hex(n)) == n
    decreases n
  {
    if n >= 16 {
      var s := Hex(n);
      assert s[..|s| - 1] == Hex(n / 16);
      ParseHexOfHex(n / 16);
    }
  }

  lemma {:induction false} ParseHexLeadingZeros(k: nat, s: string)
    ensures ParseHex(Zeros(k) + s) == ParseHex(s)
    decreases |s|, k
  {
    if s == [] {
      assert Zeros(k) + s == Zeros(k);
      if k > 0 {
        assert Zeros(k)[..k - 1] == Zeros(k - 1);
        ParseHexLeadingZeros(k - 1, s);
        assert Zeros(k - 1) + s == Zeros(k - 1);
      }
    } else {
      var t := Zeros(k) + s;
      assert t[..|t| - 1] == Zeros(k) + s[..|s| - 1];
      ParseHexLeadingZeros(k, s[..|s| - 1]);
    }
  }

  /** The padded rendering has at least `width` upper-case hex digits and reads back as `n`. */
  lemma FormatHexRoundTrip(n: nat, width: nat)
    ensures var s := FormatHex(n, width);
      && |s| == (if |Hex(n)| >= width then |Hex(n)| else width)
      && AllHexDigits(s)
      && ParseHex(s) == n
  {
    ParseHexOfHex(n);
    if |Hex(n)| < width {
      ParseHexLeadingZeros(width - |Hex(n)|, Hex(n));
    }
  }

  /** `n` needs at most `k` hex digits exactly when it is below 16^k. */
  function Pow16(k: nat): nat {
    if k == 0 then 1 else 16 * Pow16(k - 1)
  }

  lemma {:induction false} HexLength(n: nat, k: nat)
    requires k > 0
    ensures |Hex(n)| <= k <==> n < Pow16(k)
    decreases n
  {
    if n >= 16 {
      if k == 1 {
        assert Pow16(1) == 16;
      } else {
        HexLength(n / 16, k - 1);
      }
    } else {
      PowAtLeast16(k);
    }
  }

  lemma {:induction false} PowAtLeast16(k: nat)
    requires k > 0
    ensures Pow16(k) >= 16
  {
    if k > 1 {
      PowAtLeast16(k - 1);
    }
  }
}
