/** Character and string helpers shared by the phone normaliser, the share link and the
    order message: ASCII digits, decimal rendering of numbers, single-character replacement
    (Python's `str.replace` with a one-character pattern) and ASCII upper-casing. */
module Text {

  predicate IsDigit(c: char) {
    '0' <= c <= '9'
  }

  predicate AllDigits(s: string) {
    forall i :: 0 <= i < |s| ==> IsDigit(s[i])
  }

  /** Python's `s.startswith(prefix)`. */
  predicate StartsWith(s: string, prefix: string) {
    |prefix| <= |s| && forall i :: 0 <= i < |prefix| ==> s[i] == prefix[i]
  }

  function DigitChar(d: nat): (c: char)
    requires d < 10
    ensures IsDigit(c)
  {
    (48 + d) as char
  }

  /** Decimal rendering of a natural number, as Python's `str(n)`. */
  function NatToString(n: nat): (s: string)
    ensures 1 <= |s|
    ensures AllDigits(s)
    decreases n
  {
    if n < 10 then [DigitChar(n)] else NatToString(n / 10) + [DigitChar(n % 10)]
  }

  /** Python's `str(i)` for an int. */
  function IntToString(i: int): (s: string)
    ensures 1 <= |s|
    ensures i >= 0 <==> AllDigits(s)
  {
    if i < 0 then
      var s := "-" + NatToString(-i);
      assert !IsDigit(s[0]);
      s
    else NatToString(i)
  }

  /** `s.replace(c, r)` for a one-character pattern `c`. */
  function ReplaceChar(s: string, c: char, r: string): (t: string)
    ensures c !in r ==> c !in t
    ensures |r| == 1 ==> |t| == |s|
  {
    if s == [] then [] else (if s[0] == c then r else [s[0]]) + ReplaceChar(s[1..], c, r)
  }

  lemma {:induction false} ReplaceCharAppend(a: string, b: string, c: char, r: string)
    ensures ReplaceChar(a + b, c, r) == ReplaceChar(a, c, r) + ReplaceChar(b, c, r)
    decreases |a|
  {
    if a == [] {
      assert a + b == b;
    } else {
      assert (a + b)[0] == a[0];
      assert (a + b)[1..] == a[1..] + b;
      ReplaceCharAppend(a[1..], b, c, r);
    }
  }

  lemma {:induction false} ReplaceCharAbsent(s: string, c: char, r: string)
    requires c !in s
    ensures ReplaceChar(s, c, r) == s
    decreases |s|
  {
    if s != [] {
      assert s[0] != c;
      ReplaceCharAbsent(s[1..], c, r);
    }
  }

  lemma ReplaceCharSingle(x: char, c: char, r: string)
    ensures ReplaceChar([x], c, r) == if x == c then r else [x]
  {
    assert [x][0] == x && [x][1..] == [];
  }

  /** With a one-character replacement, position `i` of the result is `s[i]`, or `r[0]`
      where `s[i]` was the pattern. */
  lemma {:induction false} ReplaceCharAt(s: string, c: char, r: string, i: nat)
    requires |r| == 1 && i < |s|
    ensures |ReplaceChar(s, c, r)| == |s|
    ensures ReplaceChar(s, c, r)[i] == if s[i] == c then r[0] else s[i]
    decreases |s|
  {
    if i > 0 {
      ReplaceCharAt(s[1..], c, r, i - 1);
    }
  }

  function UpperChar(c: char): (u: char)
    ensures !('a' <= u <= 'z')
  {
    if 'a' <= c <= 'z' then (c as int - 32) as char else c
  }

  /** Python's `str.upper()`, restricted to ASCII letters. */
  function Upper(s: string): (u: string)
    ensures |u| == |s|
    ensures forall i :: 0 <= i < |s| ==> u[i] == UpperChar(s[i])
  {
    seq(|s|, i requires 0 <= i < |s| => UpperChar(s[i]))
  }

  /** Left-pads `s` with '0' up to `width` characters. */
  function PadZeros(s: string, width: nat): (t: string)
    ensures |t| == if |s| >= width then |s| else width
    decreases width - |s|
  {
    if |s| >= width then s else PadZeros("0" + s, width)
  }

  /** `magnitude` in units of 1/scale, rounded half up. */
  function ScaledUnits(magnitude: real, scale: nat): (u: nat)
    requires 0.0 <= magnitude
  {
    (magnitude * scale as real + 0.5).Floor
  }

  function SignOf(x: real): string {
    if x < 0.0 then "-" else ""
  }

  function Magnitude(x: real): (m: real)
    ensures 0.0 <= m
  {
    if x < 0.0 then -x else x
  }

  /** The `:.2f` format, rounding the exact value half away from zero. */
  function Fixed2(x: real): (s: string)
    ensures 4 <= |s|
  {
    var units := ScaledUnits(Magnitude(x), 100);
    SignOf(x) + NatToString(units / 100) + "." + PadZeros(NatToString(units % 100), 2)
  }

  /** The `:.1f` format, rounding the exact value half away from zero. */
  function Fixed1(x: real): (s: string)
    ensures 3 <= |s|
  {
    var units := ScaledUnits(Magnitude(x), 10);
    SignOf(x) + NatToString(units / 10) + "." + NatToString(units % 10)
  }

  /** A whole number scales to a whole number of units, with nothing to round. */
  lemma ScaledWhole(n: nat, scale: nat)
    ensures ScaledUnits(n as real, scale) == n * scale
  {
    var x := (n * scale) as real;
    assert n as real * scale as real == x;
    assert (x + 0.5).Floor == n * scale;
  }

  /** Two zero digits after the point. */
  lemma TwoZeros()
    ensures PadZeros(NatToString(0), 2) == "00"
  {
    assert NatToString(0) == "0";
    assert PadZeros("0", 2) == PadZeros("00", 2);
  }

  /** Hundredths of a whole number split back into the number and no cents. */
  lemma WholeHundredths(n: nat)
    ensures (n * 100) / 100 == n && (n * 100) % 100 == 0
  {
  }

  /** A whole number of rupees renders with ".00". */
  lemma FixedWhole(n: nat)
    ensures Fixed2(n as real) == NatToString(n) + ".00"
  {
    var x := n as real;
    assert Magnitude(x) == x && SignOf(x) == "";
    var units := ScaledUnits(Magnitude(x), 100);
    ScaledWhole(n, 100);
    WholeHundredths(n);
    assert units / 100 == n && units % 100 == 0;
    TwoZeros();
    var digits := NatToString(units / 100);
    var cents := PadZeros(NatToString(units % 100), 2);
    assert digits == NatToString(n) && cents == "00";
    assert Fixed2(x) == SignOf(x) + digits + "." + cents;
    JoinFixed(SignOf(x), digits, cents);
  }

  lemma JoinFixed(sign: string, d: string, c: string)
    requires sign == "" && c == "00"
    ensures sign + d + "." + c == d + ".00"
  {
  }
}
