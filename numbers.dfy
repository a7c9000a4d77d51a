/** Go's decimal conversions on 64-bit `int`: `strconv.Atoi` and `fmt.Sprintf("%d", n)`. */
module Numbers {
  import opened Wrappers

  const MinInt64: int := -0x8000_0000_0000_0000
  const MaxInt64: int := 0x7FFF_FFFF_FFFF_FFFF

  predicate IsDigit(c: char) {
    '0' <= c <= '9'
  }

  predicate AllDigits(s: string) {
    forall k :: 0 <= k < |s| ==> IsDigit(s[k])
  }

  function DigitChar(d: nat): (c: char)
    requires d < 10
    ensures IsDigit(c)
  {
    ('0' as int + d) as char
  }

  /** The value of a string of decimal digits, most significant first. */
  function DigitsValue(ds: string): nat
    requires AllDigits(ds)
  {
    if ds == [] then 0
    else DigitsValue(ds[..|ds| - 1]) * 10 + (ds[|ds| - 1] as int - '0' as int)
  }

  /** `strconv.Atoi`: an optional sign and at least one decimal digit, nothing else, and a
      value that fits in 64 bits; any other text is an error (`None`). */
  function Atoi(s: string): (r: Option<int>)
    ensures r.Some? ==> MinInt64 <= r.value <= MaxInt64
    ensures r.Some? ==> s != [] && (IsDigit(s[0]) || s[0] == '+' || s[0] == '-')
  {
    var signed := |s| > 0 && (s[0] == '+' || s[0] == '-');
    var body := if signed then s[1..] else s;
    if body == [] || !AllDigits(body) then None
    else
      var m: int := DigitsValue(body);
      var v := if signed && s[0] == '-' then 0 - m else m;
      if MinInt64 <= v <= MaxInt64 then Some(v) else None
  }

  const MaxUint64: int := 0xFFFF_FFFF_FFFF_FFFF

  /** The longest prefix of `s` made of decimal digits. */
  function LeadingDigits(s: string): (p: string)
    ensures |p| <= |s| && p == s[..|p|] && AllDigits(p)
    ensures |p| < |s| ==> !IsDigit(s[|p|])
    ensures AllDigits(s) ==> p == s
  {
    if s == [] || !IsDigit(s[0]) then []
    else
      var rest := LeadingDigits(s[1..]);
      assert s[..|rest| + 1] == [s[0]] + s[1..][..|rest|];
      [s[0]] + rest
  }

  /** The 64-bit integer nearest to `v`. */
  function Clamp64(v: int): (r: int)
    ensures MinInt64 <= r <= MaxInt64
    ensures MinInt64 <= v <= MaxInt64 ==> r == v
  {
    if v < MinInt64 then MinInt64 else if v > MaxInt64 then MaxInt64 else v
  }

  /** The number `strconv.Atoi` returns next to its error, for callers that keep it and drop
      the error. After an optional sign the digits are read from the left: a digit run worth
      more than 2^64 - 1 is a range error and gives the signed bound, whatever follows it;
      otherwise a character that is not a digit, or no digits at all, is a syntax error and
      gives 0; an all-digit text gives its value, clamped to 64 bits. */
  function AtoiValue(s: string): (v: int)
    ensures MinInt64 <= v <= MaxInt64
    ensures Atoi(s).Some? ==> v == Atoi(s).value
  {
    var signed := |s| > 0 && (s[0] == '+' || s[0] == '-');
    var body := if signed then s[1..] else s;
    var digits := LeadingDigits(body);
    var m: int := DigitsValue(digits);
    if body == [] || (digits != body && m <= MaxUint64) then 0
    else Clamp64(if signed && s[0] == '-' then 0 - m else m)
  }

  /** A decimal number beyond 64 bits is read as the nearest 64-bit bound, and `Atoi`
      reports an error for it. */
  lemma AtoiValueSaturates(n: int)
    requires n < MinInt64 || MaxInt64 < n
    ensures Atoi(Decimal(n)).None?
    ensures AtoiValue(Decimal(n)) == if n < 0 then MinInt64 else MaxInt64
  {
    var s := Decimal(n);
    if n < 0 {
      assert s[0] == '-' && s[1..] == Digits(-n);
    } else {
      assert IsDigit(s[0]);
    }
  }

  /** Text with no digit where the number should start is read as 0. */
  lemma AtoiValueNoDigits(s: string)
    requires s == [] || !IsDigit(s[0])
    requires |s| > 0 && (s[0] == '+' || s[0] == '-') ==> |s| == 1 || !IsDigit(s[1])
    ensures Atoi(s).None? && AtoiValue(s) == 0
  {
  }

  /** Digits followed by a character that is not a digit: 0 while the digits fit in 64 unsigned
      bits, the upper bound once they do not, since the overflow is met before the bad
      character. */
  lemma AtoiValueTrailing(ds: string, c: char, rest: string)
    requires ds != [] && AllDigits(ds) && !IsDigit(c)
    ensures Atoi(ds + [c] + rest).None?
    ensures AtoiValue(ds + [c] + rest) == if DigitsValue(ds) <= MaxUint64 then 0 else MaxInt64
  {
    var s := ds + [c] + rest;
    assert s[0] == ds[0];
    assert s[..|ds|] == ds;
    assert forall k :: 0 <= k < |ds| ==> s[k] == ds[k];
    assert s[|ds|] == c;
    var p := LeadingDigits(s);
    assert p == ds;
    assert !AllDigits(s) by {
      assert s[|ds|] == c;
    }
  }

  /** The decimal digits of a natural number, without leading zeros. */
  function Digits(n: nat): (ds: string)
    ensures ds != [] && AllDigits(ds)
    ensures DigitsValue(ds) == n
    decreases n
  {
    if n < 10 then [DigitChar(n)]
    else
      var ds := Digits(n / 10) + [DigitChar(n % 10)];
      assert ds[..|ds| - 1] == Digits(n / 10);
      ds
  }

  /** `fmt.Sprintf("%d", n)`. */
  function Decimal(n: int): (s: string)
    ensures s != []
  {
    if n < 0 then "-" + Digits(-n) else Digits(n)
  }

  /** Printing a 64-bit integer in decimal and parsing it back gives the integer. */
  lemma AtoiDecimal(n: int)
    requires MinInt64 <= n <= MaxInt64
    ensures Atoi(Decimal(n)) == Some(n)
  {
    var s := Decimal(n);
    if n < 0 {
      assert s[0] == '-' && s[1..] == Digits(-n);
    } else {
      assert IsDigit(s[0]);
    }
  }
}
