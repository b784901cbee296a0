// Kotlin string helpers the rules rely on: `isWhitespace`, `isBlank`,
// `trim`, `Int.toString` and `String.toIntOrNull`.

module Text {
  import opened Model
  import opened KotlinInt

  /** Kotlin's `Char.isWhitespace`: Java whitespace or a Unicode space separator. */
  predicate IsWhitespace(c: char) {
    var n := c as int;
    || n == 0x20 || (0x09 <= n <= 0x0D) || (0x1C <= n <= 0x1F)
    || n == 0xA0 || n == 0x1680 || (0x2000 <= n <= 0x200A)
    || n == 0x2028 || n == 0x2029 || n == 0x202F || n == 0x205F || n == 0x3000
  }

  /** `isBlank`: empty or whitespace only. */
  predicate IsBlank(s: string) {
    forall i :: 0 <= i < |s| ==> IsWhitespace(s[i])
  }

  function TrimStart(s: string): (r: string)
    ensures |r| <= |s| && r == s[|s| - |r|..]
    ensures r != [] ==> !IsWhitespace(r[0])
    ensures IsBlank(s[..|s| - |r|])
  {
    if s != [] && IsWhitespace(s[0]) then
      var r := TrimStart(s[1..]);
      assert s[..|s| - |r|] == [s[0]] + s[1..][..|s[1..]| - |r|];
      r
    else s
  }

  function TrimEnd(s: string): (r: string)
    ensures |r| <= |s| && r == s[..|r|]
    ensures r != [] ==> !IsWhitespace(r[|r| - 1])
    ensures IsBlank(s[|r|..])
  {
    if s != [] && IsWhitespace(s[|s| - 1]) then
      var r := TrimEnd(s[..|s| - 1]);
      assert s[|r|..] == s[..|s| - 1][|r|..] + [s[|s| - 1]];
      r
    else s
  }

  /** `trim()`: drops leading and trailing whitespace. */
  function Trim(s: string): (r: string)
    ensures |r| <= |s|
    ensures r != [] ==> !IsWhitespace(r[0]) && !IsWhitespace(r[|r| - 1])
  {
    var t := TrimStart(s);
    var r := TrimEnd(t);
    assert r != [] ==> r[0] == t[..|r|][0] == t[0];
    r
  }

  /** The trimmed string is a slice of the input with whitespace only around it. */
  lemma TrimIsInnerSlice(s: string)
    ensures exists i, j :: (0 <= i <= j <= |s| && Trim(s) == s[i..j]
                            && IsBlank(s[..i]) && IsBlank(s[j..]))
  {
    var t := TrimStart(s);
    var i := |s| - |t|;
    var j := i + |TrimEnd(t)|;
    assert Trim(s) == TrimEnd(t) == t[..j - i];
    assert t[..j - i] == s[i..j];
    assert s[j..] == t[|TrimEnd(t)|..];
    assert 0 <= i <= j <= |s| && Trim(s) == s[i..j] && IsBlank(s[..i]) && IsBlank(s[j..]);
  }

  /** A non-empty trimmed string starts and ends with a non-whitespace character. */
  lemma TrimEnds(s: string)
    ensures Trim(s) != [] ==> !IsWhitespace(Trim(s)[0]) && !IsWhitespace(Trim(s)[|Trim(s)| - 1])
    ensures Trim(s) != [] ==> Trim(s)[0] == s[|s| - |TrimStart(s)|]
  {
    var t := TrimStart(s);
    if Trim(s) != [] {
      assert Trim(s)[0] == t[0];
    }
  }

  /** A string trims to nothing exactly when it is blank. */
  lemma TrimEmptyIffBlank(s: string)
    ensures Trim(s) == [] <==> IsBlank(s)
  {
    var t := TrimStart(s);
    if Trim(s) == [] {
      assert t == t[|TrimEnd(t)|..];
      assert t == [];
      assert s == s[..|s| - |t|];
    } else {
      TrimEnds(s);
      assert !IsWhitespace(s[|s| - |t|]);
    }
  }

  /** Trimming twice is trimming once. */
  lemma TrimIdempotent(s: string)
    ensures Trim(Trim(s)) == Trim(s)
  {
    var r := Trim(s);
    TrimEnds(s);
    if r != [] {
      assert TrimStart(r) == r;
      assert TrimEnd(r) == r;
    }
  }

  // ---- decimal numbers ----

  function DigitChar(d: int): char
    requires 0 <= d < 10
  {
    ['0', '1', '2', '3', '4', '5', '6', '7', '8', '9'][d]
  }

  predicate IsDigit(c: char) {
    '0' <= c <= '9'
  }

  function DigitValue(c: char): int
    requires IsDigit(c)
  {
    c as int - '0' as int
  }

  /** `toString()` of a non-negative integer: its decimal digits, no leading zero. */
  function NatToDecimal(n: nat): (r: string)
    ensures |r| >= 1 && forall i :: 0 <= i < |r| ==> IsDigit(r[i])
    ensures |r| > 1 ==> r[0] != '0'
    decreases n
  {
    if n < 10 then [DigitChar(n)] else NatToDecimal(n / 10) + [DigitChar(n % 10)]
  }

  /** The value of a string of ASCII digits, most significant first. */
  function DigitsValue(s: string): (v: nat)
    requires forall i :: 0 <= i < |s| ==> IsDigit(s[i])
  {
    if s == [] then 0 else DigitsValue(s[..|s| - 1]) * 10 + DigitValue(s[|s| - 1])
  }

  predicate AllDigits(s: string) {
    forall i :: 0 <= i < |s| ==> IsDigit(s[i])
  }

  /** What follows an optional leading sign. */
  function Unsigned(s: string): string
    requires |s| >= 1
  {
    if s[0] == '-' || s[0] == '+' then s[1..] else s
  }

  /**
   * `String.toIntOrNull()` in radix 10: an optional sign, at least one digit,
   * nothing else, and a value that fits in a Kotlin `Int`.
   */
  function ToIntOrNull(s: string): (r: Option<int>)
    ensures r.Some? ==> InIntRange(r.value)
    ensures r.Some? <==>
      && |s| >= 1
      && Unsigned(s) != [] && AllDigits(Unsigned(s))
      && (if s[0] == '-' then DigitsValue(Unsigned(s)) <= -IntMin else DigitsValue(Unsigned(s)) <= IntMax)
    ensures r.Some? ==> r.value == if s[0] == '-' then -(DigitsValue(Unsigned(s)) as int) else DigitsValue(Unsigned(s))
  {
    if |s| == 0 then None
    else
      var negative := s[0] == '-';
      var digits := Unsigned(s);
      if digits == [] || !AllDigits(digits) then None
      else
        var v: int := if negative then 0 - (DigitsValue(digits) as int) else DigitsValue(digits);
        if IntMin <= v <= IntMax then Some(v) else None
  }

  /** Decimal printing and digit parsing are inverse. */
  lemma {:induction false} DigitsValueOfDecimal(n: nat)
    ensures DigitsValue(NatToDecimal(n)) == n
    decreases n
  {
    if n >= 10 {
      var r := NatToDecimal(n);
      assert r[..|r| - 1] == NatToDecimal(n / 10);
      DigitsValueOfDecimal(n / 10);
    }
  }

  /** Printing a value of `Int` range and reading it back gives that value. */
  lemma DecimalRoundTrip(n: nat)
    requires n <= IntMax
    ensures ToIntOrNull(NatToDecimal(n)) == Some(n)
  {
    DigitsValueOfDecimal(n);
  }

  /** Printing a negative value of `Int` range, after a minus sign, and reading it back gives that value. */
  lemma NegativeDecimalRoundTrip(n: nat)
    requires 1 <= n <= -IntMin
    ensures ToIntOrNull("-" + NatToDecimal(n)) == Some(-(n as int))
  {
    var s := "-" + NatToDecimal(n);
    assert s[0] == '-' && s[1..] == NatToDecimal(n);
    DigitsValueOfDecimal(n);
  }

  /** A number outside `Int` range reads back as null, whichever sign it is printed with. */
  lemma DecimalOutOfRange(n: nat)
    requires n > IntMax
    ensures ToIntOrNull(NatToDecimal(n)) == None
    ensures n > -IntMin ==> ToIntOrNull("-" + NatToDecimal(n)) == None
  {
    var s := "-" + NatToDecimal(n);
    assert s[0] == '-' && s[1..] == NatToDecimal(n);
    DigitsValueOfDecimal(n);
  }

  /** Distinct numbers print differently. */
  lemma NatToDecimalInjective(m: nat, n: nat)
    ensures NatToDecimal(m) == NatToDecimal(n) ==> m == n
  {
    DigitsValueOfDecimal(m);
    DigitsValueOfDecimal(n);
  }

  /** The number of decimal digits of n is 6 exactly when n is in [100000, 999999]. */
  lemma {:induction false} DecimalLength(n: nat, k: nat)
    requires k >= 1
    ensures |NatToDecimal(n)| == k <==> (if k == 1 then 0 else Pow10(k - 1)) <= n < Pow10(k)
    decreases n
  {
    if n >= 10 {
      if k > 1 {
        DecimalLength(n / 10, k - 1);
        Pow10Positive(k - 2);
      } else {
        DecimalLength(n / 10, 1);
      }
    } else if k > 1 {
      Pow10Positive(k - 2);
      Pow10Positive(k - 1);
    }
  }

  function Pow10(k: nat): (p: nat) {
    if k == 0 then 1 else 10 * Pow10(k - 1)
  }

  lemma {:induction false} Pow10Positive(k: nat)
    ensures Pow10(k) >= 1 && Pow10(k + 1) >= 10
  {
    if k > 0 { Pow10Positive(k - 1); }
  }
}
