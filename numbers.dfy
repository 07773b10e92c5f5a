/** JavaScript's `parseInt(s)` (no radix argument) and `parseFloat(s)`, the
    conversions the form handlers and the CSV import apply to text fields.
    `None` is `NaN`. Values are exact: `parseFloat` is not rounded to a double. */
module Numbers {
  import opened Common
  import opened Strings

  /** Value of `c` as a digit in base `radix` (10 or 16), if it is one. */
  function DigitValue(c: char, radix: nat): (r: Option<nat>)
    ensures r.Some? ==> r.value < radix
  {
    if '0' <= c <= '9' && (c as int - '0' as int) < radix then Some(c as int - '0' as int)
    else if radix == 16 && 'a' <= c <= 'f' then Some(c as int - 'a' as int + 10)
    else if radix == 16 && 'A' <= c <= 'F' then Some(c as int - 'A' as int + 10)
    else None
  }

  predicate IsDigit(c: char, radix: nat) { DigitValue(c, radix).Some? }

  /** Length of the longest prefix of `s` made of digits in base `radix`. */
  function DigitRun(s: string, radix: nat): (n: nat)
    ensures n <= |s|
    ensures forall i :: 0 <= i < n ==> IsDigit(s[i], radix)
    ensures n < |s| ==> !IsDigit(s[n], radix)
  {
    if |s| > 0 && IsDigit(s[0], radix) then 1 + DigitRun(s[1..], radix) else 0
  }

  /** The number a string of digits denotes in base `radix`, most significant first. */
  function RunValue(s: string, radix: nat): nat
    requires forall i :: 0 <= i < |s| ==> IsDigit(s[i], radix)
  {
    if |s| == 0 then 0
    else
      assert IsDigit(s[|s| - 1], radix);
      RunValue(s[..|s| - 1], radix) * radix + DigitValue(s[|s| - 1], radix).value
  }

  /** `s` with one leading `+` or `-` removed, and the sign it carried. */
  function SplitSign(s: string): (r: (int, string))
    ensures r.0 == 1 || r.0 == -1
    ensures |s| > 0 && (s[0] == '+' || s[0] == '-') ==> r.1 == s[1..] && (r.0 == -1 <==> s[0] == '-')
    ensures !(|s| > 0 && (s[0] == '+' || s[0] == '-')) ==> r == (1, s)
  {
    if |s| > 0 && s[0] == '-' then (-1, s[1..])
    else if |s| > 0 && s[0] == '+' then (1, s[1..])
    else (1, s)
  }

  /** `u` starts with the `0x` or `0X` that switches `parseInt` to base 16. */
  predicate HasHexPrefix(u: string)
  {
    |u| >= 2 && u[0] == '0' && (u[1] == 'x' || u[1] == 'X')
  }

  /** The digits `parseInt` reads once white space and sign are gone. */
  function UnsignedInt(u: string): (r: Option<nat>)
  {
    var radix := if HasHexPrefix(u) then 16 else 10;
    var body := if HasHexPrefix(u) then u[2..] else u;
    var n := DigitRun(body, radix);
    if n == 0 then None else Some(RunValue(body[..n], radix))
  }

  /** `parseInt(s)`: skip leading white space, read an optional sign, switch
      to base 16 after a `0x`/`0X` prefix, then read the longest run of
      digits; no digit at all gives `NaN`. */
  function ParseInt(s: string): (r: Option<int>)
  {
    var p := SplitSign(TrimStart(s));
    match UnsignedInt(p.1)
    case None => None
    case Some(v) => Some(p.0 * v)
  }

  /** `parseInt(x)` where `x` may be `undefined` (which gives `NaN`). */
  function ParseIntOf(x: Option<string>): Option<int>
  {
    if x.None? then None else ParseInt(x.value)
  }

  function Pow10(e: nat): (r: real)
    ensures r >= 1.0
  {
    if e == 0 then 1.0 else 10.0 * Pow10(e - 1)
  }

  /** Length and value of an exponent part `e[+-]digits` at the start of `s`,
      or `(0, 0)` when `s` does not start with a complete one. */
  function ExponentPart(s: string): (r: (nat, int))
    ensures r.0 <= |s|
  {
    if |s| > 0 && (s[0] == 'e' || s[0] == 'E') then
      var (sign, u) := SplitSign(s[1..]);
      var n := DigitRun(u, 10);
      if n == 0 then (0, 0) else (|s| - |u| + n, sign * RunValue(u[..n], 10))
    else (0, 0)
  }

  /** `m * 10^e` for an integer exponent `e`. */
  function Scale(m: real, e: int): real
  {
    if e >= 0 then m * Pow10(e) else m / Pow10(-e)
  }

  /** The digits after a leading decimal point of `rest`, if it has one. */
  function FractionDigits(rest: string): (frac: string)
    ensures |rest| > 0 && rest[0] == '.' ==> |frac| < |rest| && frac == rest[1..1 + |frac|]
    ensures !(|rest| > 0 && rest[0] == '.') ==> frac == ""
    ensures forall i :: 0 <= i < |frac| ==> IsDigit(frac[i], 10)
  {
    if |rest| > 0 && rest[0] == '.' then rest[1..1 + DigitRun(rest[1..], 10)] else ""
  }

  /** The number `parseFloat` reads once white space and sign are gone. */
  function UnsignedFloat(u: string): (r: Option<real>)
  {
    var i := DigitRun(u, 10);
    var rest := u[i..];
    var frac := FractionDigits(rest);
    if i == 0 && |frac| == 0 then None
    else
      var after := if |rest| > 0 && rest[0] == '.' then rest[1 + |frac|..] else rest;
      var mantissa := RunValue(u[..i], 10) as real + RunValue(frac, 10) as real / Pow10(|frac|);
      Some(Scale(mantissa, ExponentPart(after).1))
  }

  /** `parseFloat(s)`: skip leading white space, then read the longest prefix
      of the form `[+-] digits [. digits] [e[+-]digits]` or `[+-] . digits
      [e[+-]digits]`; without a digit before or after the point it is `NaN`. */
  function ParseFloat(s: string): (r: Option<real>)
  {
    var p := SplitSign(TrimStart(s));
    match UnsignedFloat(p.1)
    case None => None
    case Some(v) => Some(p.0 as real * v)
  }

  /** `parseFloat(x)` where `x` may be `undefined` (which gives `NaN`). */
  function ParseFloatOf(x: Option<string>): Option<real>
  {
    if x.None? then None else ParseFloat(x.value)
  }

  lemma DigitCharValue(d: nat)
    requires d < 10
    ensures DigitValue(DigitChar(d), 10) == Some(d)
  {
    assert "0123456789"[0] == '0' && "0123456789"[1] == '1' && "0123456789"[2] == '2';
    assert "0123456789"[3] == '3' && "0123456789"[4] == '4' && "0123456789"[5] == '5';
    assert "0123456789"[6] == '6' && "0123456789"[7] == '7' && "0123456789"[8] == '8';
    assert "0123456789"[9] == '9';
  }

  /** Every character of a rendered number is a decimal digit. */
  lemma NatToStringDigits(n: nat)
    ensures forall i :: 0 <= i < |NatToString(n)| ==> IsDigit(NatToString(n)[i], 10)
  {
  }

  /** Reading back the decimal text of `n` gives `n`. */
  lemma {:induction false} RunValueOfNatToString(n: nat)
    ensures forall i :: 0 <= i < |NatToString(n)| ==> IsDigit(NatToString(n)[i], 10)
    ensures RunValue(NatToString(n), 10) == n
  {
    NatToStringDigits(n);
    var s := NatToString(n);
    if n < 10 {
      DigitCharValue(n);
    } else {
      RunValueOfNatToString(n / 10);
      DigitCharValue(n % 10);
      assert s[..|s| - 1] == NatToString(n / 10);
    }
  }

  /** A run of digits followed by something that is not a digit. */
  lemma {:induction false} DigitRunOfPrefix(d: string, t: string, radix: nat)
    requires forall i :: 0 <= i < |d| ==> IsDigit(d[i], radix)
    requires t == [] || !IsDigit(t[0], radix)
    ensures DigitRun(d + t, radix) == |d|
  {
    if |d| > 0 {
      assert (d + t)[1..] == d[1..] + t;
      DigitRunOfPrefix(d[1..], t, radix);
    } else {
      assert d + t == t;
    }
  }

  /** A rendered number does not start with white space or a sign. */
  lemma NatToStringStart(n: nat, t: string)
    ensures TrimStart(NatToString(n) + t) == NatToString(n) + t
    ensures SplitSign(NatToString(n) + t) == (1, NatToString(n) + t)
  {
    var s := NatToString(n);
    var u := s + t;
    assert u[0] == s[0];
    var c := u[0];
    assert '0' <= c <= '9';
    assert !IsSpace(c);
    assert TrimStart(u) == u;
  }

  lemma {:induction false} UnsignedIntOfNatToString(n: nat, t: string)
    requires t == [] || (!IsDigit(t[0], 10) && t[0] != 'x' && t[0] != 'X')
    ensures UnsignedInt(NatToString(n) + t) == Some(n)
  {
    var s := NatToString(n);
    RunValueOfNatToString(n);
    DigitRunOfPrefix(s, t, 10);
    assert (s + t)[..|s|] == s;
    assert !HasHexPrefix(s + t) by {
      if |s| == 1 {
        assert |s + t| >= 2 ==> (s + t)[1] == t[0];
      } else {
        assert (s + t)[1] == s[1] && '0' <= s[1] <= '9';
      }
    }
  }

  /** `parseInt` reads back what a template literal renders for a non-negative
      integer, and stops at the first character that is not a digit (an `x`
      right after a lone `0` would instead start a base-16 number). */
  lemma ParseIntOfNatToString(n: nat, t: string)
    requires t == [] || (!IsDigit(t[0], 10) && t[0] != 'x' && t[0] != 'X')
    ensures ParseInt(NatToString(n) + t) == Some(n)
  {
    NatToStringStart(n, t);
    UnsignedIntOfNatToString(n, t);
  }

  /** Leading white space does not change what `parseInt` reads. */
  lemma ParseIntSkipsSpace(c: char, s: string)
    requires IsSpace(c)
    ensures ParseInt([c] + s) == ParseInt(s)
  {
    assert ([c] + s)[1..] == s;
  }

  /** Text that starts with neither white space nor a sign is read as it is. */
  lemma UnsignedStart(s: string)
    requires s == [] || (!IsSpace(s[0]) && s[0] != '+' && s[0] != '-')
    ensures TrimStart(s) == s && SplitSign(s) == (1, s)
  {
  }

  /** A minus sign before such text is read as the sign. */
  lemma MinusStart(s: string)
    ensures TrimStart("-" + s) == "-" + s && SplitSign("-" + s) == (-1, s)
  {
    var u := "-" + s;
    assert u[0] == '-' && u[1..] == s;
    assert !IsSpace(u[0]);
  }

  /** A minus sign negates what `parseInt` reads. */
  lemma ParseIntNegative(s: string)
    requires s == [] || (!IsSpace(s[0]) && s[0] != '+' && s[0] != '-')
    ensures ParseInt("-" + s) == (if ParseInt(s).Some? then Some(-ParseInt(s).value) else None)
  {
    UnsignedStart(s);
    MinusStart(s);
  }

  lemma UnsignedFloatOfNatToString(n: nat)
    ensures UnsignedFloat(NatToString(n)) == Some(n as real)
  {
    var s := NatToString(n);
    RunValueOfNatToString(n);
    DigitRunOfPrefix(s, [], 10);
    assert s + [] == s;
    var i := |s|;
    UnsignedFloatWhole(s, i);
    assert s[i..] == [];
    NoFraction(n, FractionDigits(s[i..]), ExponentPart(s[i..]).1);
  }

  /** `UnsignedFloat` of a text whose digit run is all of it. */
  lemma UnsignedFloatWhole(u: string, i: nat)
    requires i == DigitRun(u, 10) == |u| > 0
    ensures var frac := FractionDigits(u[i..]);
      UnsignedFloat(u) == Some(Scale(RunValue(u, 10) as real + RunValue(frac, 10) as real / Pow10(|frac|),
                                     ExponentPart(u[i..]).1))
  {
    assert u[..i] == u;
  }

  /** A mantissa with no fraction digits, at exponent 0, is its integer part. */
  lemma NoFraction(v: nat, frac: string, e: int)
    requires frac == "" && e == 0
    ensures Scale(v as real + RunValue(frac, 10) as real / Pow10(|frac|), e) == v as real
  {
    assert RunValue(frac, 10) == 0;
    assert Pow10(0) == 1.0;
    assert v as real + 0.0 / 1.0 == v as real;
    assert (v as real) * 1.0 == v as real;
  }

  /** `parseFloat` reads back the decimal text of a non-negative integer. */
  lemma ParseFloatOfNatToString(n: nat)
    ensures ParseFloat(NatToString(n)) == Some(n as real)
  {
    NatToStringStart(n, []);
    assert NatToString(n) + [] == NatToString(n);
    UnsignedFloatOfNatToString(n);
  }
}
