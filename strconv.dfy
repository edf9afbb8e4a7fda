/**
 * The few pieces of Go's strconv, fmt and strings packages that the operator
 * relies on: decimal formatting (strconv.Itoa), decimal parsing (strconv.Atoi),
 * lower-case hexadecimal formatting (fmt's %x), the int32 conversion and
 * ASCII lower-casing.
 */
module StrConv {
  import opened Wrappers

  const MinInt64: int := -0x8000_0000_0000_0000
  const MaxInt64: int := 0x7fff_ffff_ffff_ffff

  /** The lower-case digit for `d` in base 16 (and so in base 10). */
  function DigitChar(d: nat): (r: char)
    requires d < 16
  {
    "0123456789abcdef"[d]
  }

  /** The value of digit `c` in `base`, if it is one. */
  function DigitValue(c: char, base: nat): (r: Option<nat>)
    requires 2 <= base <= 16
    ensures r.Some? ==> r.value < base && DigitChar(r.value) == c
  {
    if '0' <= c <= '9' && (c as int - '0' as int) < base then Some(c as int - '0' as int)
    else if 'a' <= c <= 'f' && (c as int - 'a' as int) + 10 < base then Some(c as int - 'a' as int + 10)
    else None
  }

  /** The digits of `n` in `base`, most significant first, without leading zeros. */
  function Digits(n: nat, base: nat): (s: string)
    requires 2 <= base <= 16
    decreases n
  {
    if n < base then [DigitChar(n)] else Digits(n / base, base) + [DigitChar(n % base)]
  }

  /** The value of the digit string `s` in `base`; None when `s` is empty or holds a non-digit. */
  function ParseDigits(s: string, base: nat): (r: Option<nat>)
    requires 2 <= base <= 16
    decreases |s|
  {
    if |s| == 0 then None
    else
      var last := DigitValue(s[|s| - 1], base);
      if last.None? then None
      else if |s| == 1 then last
      else
        var prefix := ParseDigits(s[..|s| - 1], base);
        if prefix.None? then None else Some(prefix.value * base + last.value)
  }

  /** strconv.Itoa: the decimal form of `n`, with a leading '-' when negative. */
  function Itoa(n: int): (r: string) {
    if n < 0 then "-" + Digits(-n, 10) else Digits(n, 10)
  }

  /** fmt.Sprintf("%x", n): lower-case hexadecimal without leading zeros. */
  function FormatHex(n: nat): (r: string) {
    Digits(n, 16)
  }

  /**
   * strconv.Atoi: an optional '+' or '-', then one or more decimal digits,
   * whose value must fit in a 64-bit int; anything else is an error (None).
   */
  function Atoi(s: string): (r: Option<int>) {
    if |s| == 0 then None
    else
      var signed := s[0] == '+' || s[0] == '-';
      var body := if signed then s[1..] else s;
      match ParseDigits(body, 10)
      case None => None
      case Some(v) =>
        var vi: int := v;
        var x := if s[0] == '-' then -vi else vi;
        if MinInt64 <= x <= MaxInt64 then Some(x) else None
  }

  /** Go's int32(x) conversion: keep the low 32 bits, read as two's complement. */
  function Int32(x: int): (r: int)
    ensures -0x8000_0000 <= r < 0x8000_0000
    ensures -0x8000_0000 <= x < 0x8000_0000 ==> r == x
  {
    (x + 0x8000_0000) % 0x1_0000_0000 - 0x8000_0000
  }

  /** Go's uint32(x) conversion. */
  function Uint32(x: int): (r: nat)
    ensures r < 0x1_0000_0000
    ensures 0 <= x < 0x1_0000_0000 ==> r == x
  {
    x % 0x1_0000_0000
  }

  /** strings.ToLower restricted to ASCII letters. */
  function ToLower(s: string): (r: string)
    ensures |r| == |s|
    ensures forall i | 0 <= i < |s| :: r[i] == if 'A' <= s[i] <= 'Z' then (s[i] as int + 32) as char else s[i]
    ensures forall i | 0 <= i < |r| :: !('A' <= r[i] <= 'Z')
  {
    if s == [] then []
    else
      var c := s[0];
      [if 'A' <= c <= 'Z' then (c as int + 32) as char else c] + ToLower(s[1..])
  }

  /** Every character `Digits` produces is a digit of its base. */
  lemma {:induction false} DigitsAreDigits(n: nat, base: nat, i: nat)
    requires 2 <= base <= 16
    requires i < |Digits(n, base)|
    ensures DigitValue(Digits(n, base)[i], base).Some?
    decreases n
  {
    if n >= base {
      var q, r := n / base, n % base;
      DivMod(n, base);
      var prefix := Digits(q, base);
      assert Digits(n, base) == prefix + [DigitChar(r)];
      if i < |prefix| {
        DigitsAreDigits(q, base, i);
      } else {
        DigitCharValue(r, base);
      }
    } else {
      DigitCharValue(n, base);
    }
  }

  lemma DigitCharValue(d: nat, base: nat)
    requires 2 <= base <= 16 && d < base
    ensures DigitValue(DigitChar(d), base) == Some(d)
  {
  }

  lemma DivMod(n: nat, base: nat)
    requires 2 <= base <= n
    ensures n / base < n && (n / base) * base + n % base == n && n % base < base
  {
    var q := n / base;
    assert q * base + n % base == n;
  }

  /** Parsing undoes digit formatting, in every base. */
  lemma {:induction false} ParseDigitsOfDigits(n: nat, base: nat)
    requires 2 <= base <= 16
    ensures ParseDigits(Digits(n, base), base) == Some(n)
    decreases n
  {
    var s := Digits(n, base);
    if n < base {
      DigitCharValue(n, base);
    } else {
      var q, r := n / base, n % base;
      DivMod(n, base);
      var prefix := Digits(q, base);
      assert s == prefix + [DigitChar(r)];
      assert s[..|s| - 1] == prefix;
      DigitCharValue(r, base);
      ParseDigitsOfDigits(q, base);
      assert ParseDigits(s, base) == Some(q * base + r);
    }
  }

  /**
   * strconv.Atoi undoes strconv.Itoa on every 64-bit value, and rejects the
   * rendering of every value outside 64 bits.
   */
  lemma AtoiOfItoa(n: int)
    ensures Atoi(Itoa(n)) == if MinInt64 <= n <= MaxInt64 then Some(n) else None
  {
    var d := Digits(if n < 0 then -n else n, 10);
    DigitsAreDigits(if n < 0 then -n else n, 10, 0);
    ParseDigitsOfDigits(if n < 0 then -n else n, 10);
    if n < 0 {
      assert Itoa(n)[1..] == d;
    }
  }

  /**
   * Text that is not an optionally signed run of decimal digits: empty, a lone
   * sign, or holding a character that is neither a digit nor a leading sign.
   */
  predicate NotDecimal(s: string) {
    || s == "" || s == "+" || s == "-"
    || exists i | 0 <= i < |s| :: !('0' <= s[i] <= '9') && !(i == 0 && (s[i] == '+' || s[i] == '-'))
  }

  /** A single non-digit makes decimal digit parsing fail. */
  lemma {:induction false} ParseDigitsNeedsDigits(s: string, i: nat)
    requires i < |s| && !('0' <= s[i] <= '9')
    ensures ParseDigits(s, 10) == None
    decreases |s|
  {
    if i < |s| - 1 {
      ParseDigitsNeedsDigits(s[..|s| - 1], i);
    }
  }

  /** strconv.Atoi rejects every text that is not an optionally signed run of digits. */
  lemma AtoiRejectsNotDecimal(s: string)
    requires NotDecimal(s)
    ensures Atoi(s) == None
  {
    if s != "" && s != "+" && s != "-" {
      var i :| 0 <= i < |s| && !('0' <= s[i] <= '9') && !(i == 0 && (s[i] == '+' || s[i] == '-'));
      if s[0] == '+' || s[0] == '-' {
        ParseDigitsNeedsDigits(s[1..], i - 1);
      } else {
        ParseDigitsNeedsDigits(s, i);
      }
    }
  }

  /** Decimal formatting is injective, so distinct ports give distinct names. */
  lemma ItoaInjective(m: int, n: int)
    requires MinInt64 <= m <= MaxInt64 && MinInt64 <= n <= MaxInt64
    requires Itoa(m) == Itoa(n)
    ensures m == n
  {
    AtoiOfItoa(m);
    AtoiOfItoa(n);
  }

  /** The hexadecimal hash text determines the hash. */
  lemma {:induction false} ParseFormatHex(n: nat)
    ensures ParseDigits(FormatHex(n), 16) == Some(n)
  {
    ParseDigitsOfDigits(n, 16);
  }
}
