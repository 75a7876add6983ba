/** The server's own integer formatting, which fills a 12-byte buffer from its end. */
module Itoa {
  import opened Wrappers

  const MIN_INT: int := -0x8000_0000_0000_0000
  const MAX_INT: int := 0x7FFF_FFFF_FFFF_FFFF

  /** Go's int. */
  type int64 = v: int | MIN_INT <= v <= MAX_INT

  /** The values that fit the 12 bytes, and the smallest integer, whose negation overflows. */
  predicate Formats(value: int) {
    -100_000_000_000 < value < 1_000_000_000_000 || value == MIN_INT
  }

  predicate IsDigit(c: char) {
    '0' <= c <= '9'
  }

  function Digit(d: int): (c: char)
    requires 0 <= d < 10
    ensures IsDigit(c) && c as int - '0' as int == d
  {
    ('0' as int + d) as char
  }

  function Digits(n: nat): string {
    if n < 10 then [Digit(n)] else Digits(n / 10) + [Digit(n % 10)]
  }

  function Decimal(value: int): string {
    if value < 0 then "-" + Digits(-value) else Digits(value)
  }

  /** Negation of a 64-bit integer. */
  function Negated(value: int): int {
    if value == MIN_INT then MIN_INT else -value
  }

  /** `written` are the last digits of `value`, and those of `rest` come before them. */
  ghost predicate Unfinished(value: nat, rest: nat, written: string) {
    Digits(value) == (if rest == 0 then "" else Digits(rest)) + written
  }

  lemma UnfinishedStart(value: nat)
    requires value > 0
    ensures Unfinished(value, value, "")
  {
  }

  lemma UnfinishedStep(value: nat, rest: nat, written: string)
    requires Unfinished(value, rest, written) && rest > 0
    ensures Unfinished(value, rest / 10, [Digit(rest % 10)] + written) && |written| < |Digits(value)|
  {
    assert Digits(rest) == (if rest / 10 == 0 then "" else Digits(rest / 10)) + [Digit(rest % 10)];
  }

  lemma UnfinishedEnd(value: nat, written: string)
    requires Unfinished(value, 0, written)
    ensures written == Digits(value) && written != ""
  {
  }

  /** The loop: writes the digits of `value` at the end of the buffer and returns where they start, or -1
      when they do not fit. */
  method Fill(buf: array<char>, value: int) returns (idx: int)
    modifies buf
    ensures value <= 0 ==> idx == buf.Length
    ensures value > 0 ==> (idx >= 0 <==> |Digits(value)| <= buf.Length)
    ensures value > 0 && idx >= 0 ==> idx < buf.Length && buf[idx..] == Digits(value)
  {
    hide Digits, Unfinished;
    var rest := value;
    idx := buf.Length;
    if value <= 0 {
      return;
    }
    UnfinishedStart(value);
    assert buf[idx..] == "";
    while rest > 0
      invariant 0 <= idx <= buf.Length && rest >= 0
      invariant Unfinished(value, rest, buf[idx..])
      decreases rest
    {
      UnfinishedStep(value, rest, buf[idx..]);
      if idx == 0 {
        return -1;
      }
      ghost var written := buf[idx..];
      var last := Digit(rest % 10);
      idx, rest := idx - 1, rest / 10;
      buf[idx] := last;
      assert buf[idx..] == [last] + written;
    }
    UnfinishedEnd(value, buf[idx..]);
  }

  function Pow10(k: nat): nat {
    if k == 0 then 1 else 10 * Pow10(k - 1)
  }

  lemma {:induction false} Pow10Positive(k: nat)
    ensures Pow10(k) >= 1
  {
    if k > 0 {
      Pow10Positive(k - 1);
    }
  }

  /** A number has at most `k` digits exactly when it is below 10^k. */
  lemma {:induction false} LengthIff(n: nat, k: nat)
    requires k > 0
    ensures |Digits(n)| <= k <==> n < Pow10(k)
  {
    if n >= 10 {
      if k > 1 {
        LengthIff(n / 10, k - 1);
      }
    } else {
      Pow10Positive(k - 1);
    }
  }

  lemma LengthLimits(n: nat)
    ensures |Digits(n)| <= 12 <==> n < 1_000_000_000_000
    ensures |Digits(n)| <= 11 <==> n < 100_000_000_000
  {
    LengthIff(n, 12);
    LengthIff(n, 11);
    assert Pow10(3) == 1000 && Pow10(6) == 1_000_000 && Pow10(9) == 1_000_000_000;
    assert Pow10(11) == 100_000_000_000 && Pow10(12) == 1_000_000_000_000;
  }

  /** None is the panic of an index below zero. The 12 bytes are enough exactly for values between -10^11
      and 10^12 exclusive; the smallest integer, whose negation overflows, gives a bare sign. */
  method Itoa(value: int64) returns (text: Option<string>)
    ensures text.Some? <==> Formats(value)
    ensures text.Some? && value != MIN_INT ==> text.value == Decimal(value)
    ensures value == MIN_INT ==> text == Some("-")
  {
    if value == 0 {
      return Some("0");
    }
    var neg := value < 0;
    var rest := if neg then Negated(value) else value;
    var buf := new char[12];
    var idx := Fill(buf, rest);
    if rest > 0 {
      LengthLimits(rest);
    }
    if idx < 0 || (neg && idx == 0) {
      return None;
    }
    if neg {
      idx := idx - 1;
      buf[idx] := '-';
    }
    assert value == MIN_INT ==> buf[idx..] == "-";
    text := Some(buf[idx..]);
  }

  // ---------- parsing back ----------

  predicate Canonical(text: string) {
    && text != "" && (forall i :: 0 <= i < |text| ==> IsDigit(text[i]))
    && (|text| > 1 ==> text[0] != '0')
  }

  function Parse(text: string): nat
    requires forall i :: 0 <= i < |text| ==> IsDigit(text[i])
  {
    if text == "" then 0
    else
      var last := text[|text| - 1];
      assert IsDigit(last);
      Parse(text[..|text| - 1]) * 10 + (last as int - '0' as int)
  }

  lemma {:induction false} DigitsParse(n: nat)
    ensures Canonical(Digits(n)) && Parse(Digits(n)) == n
    ensures n > 0 ==> Digits(n)[0] != '0'
  {
    if n >= 10 {
      DigitsParse(n / 10);
      assert Digits(n)[..|Digits(n)| - 1] == Digits(n / 10);
    } else {
      assert Digits(n)[..0] == "";
    }
  }

  lemma {:induction false} ParseDigits(text: string)
    requires Canonical(text)
    ensures Digits(Parse(text)) == text
    ensures text[0] != '0' ==> Parse(text) > 0
    decreases |text|
  {
    var init := text[..|text| - 1];
    if init != "" {
      ParseDigits(init);
      assert text == init + [text[|text| - 1]];
    }
  }

  function ParseSigned(text: string): int
    requires text != "" && forall i :: (if text[0] == '-' then 1 else 0) <= i < |text| ==> IsDigit(text[i])
  {
    if text[0] == '-' then -(Parse(text[1..]) as int) else Parse(text)
  }

  /** The text parses back to the value, so different values have different texts. */
  lemma DecimalParses(value: int)
    ensures var text := Decimal(value);
      && text != "" && (forall i :: (if text[0] == '-' then 1 else 0) <= i < |text| ==> IsDigit(text[i]))
      && ParseSigned(text) == value
      && (value < 0 <==> text[0] == '-') && Canonical(if value < 0 then text[1..] else text)
  {
    if value < 0 {
      DigitsParse(-value);
      assert Decimal(value)[1..] == Digits(-value);
    } else {
      DigitsParse(value);
    }
  }
}
