/**
 * The JavaScript number conversions the invoice code relies on, over exact
 * reals and unbounded integers: `Number(x) || 0`, `parseInt(s)`,
 * `n.toString()` and `s.padStart(w, c)`.
 */
module JsNumber {
  import opened Wrappers
  import JsString

  /**
   * A field value as `Number(x)` sees it.
   * Num(v): `Number(x)` is the finite number v (this includes `null` and "",
   * which convert to 0); Malformed: `Number(x)` is NaN (a non-numeric string,
   * an object, NaN itself); Absent: the key is missing, i.e. `undefined`.
   */
  datatype RawNum = Num(value: real) | Malformed | Absent

  /** `Number(x) || 0`: the number, or 0 when the conversion gives NaN or the key is missing. */
  function Coerce(x: RawNum): real
  {
    match x
    case Num(v) => v
    case _ => 0.0
  }

  /** Coercion is total, and a value that already is a number is kept as it is. */
  lemma CoerceNumber(v: real)
    ensures Coerce(Num(v)) == v
    ensures Coerce(Malformed) == 0.0 && Coerce(Absent) == 0.0
  {
  }

  // ---------------------------------------------------------------------
  // parseInt
  // ---------------------------------------------------------------------

  predicate IsDecimalDigit(c: char) { '0' <= c <= '9' }

  predicate IsDigitIn(c: char, radix: nat)
  {
    if radix == 16 then IsDecimalDigit(c) || 'a' <= c <= 'f' || 'A' <= c <= 'F'
    else IsDecimalDigit(c)
  }

  function DigitValue(c: char): nat
  {
    if IsDecimalDigit(c) then (c as int - '0' as int)
    else if 'a' <= c <= 'f' then (c as int - 'a' as int) + 10
    else if 'A' <= c <= 'F' then (c as int - 'A' as int) + 10
    else 0
  }

  /** The longest prefix of s made of digits of the given radix. */
  function LeadingDigits(s: string, radix: nat): (r: string)
    ensures |r| <= |s| && r == s[..|r|]
    ensures forall k :: 0 <= k < |r| ==> IsDigitIn(r[k], radix)
    ensures |r| < |s| ==> !IsDigitIn(s[|r|], radix)
  {
    if s == [] || !IsDigitIn(s[0], radix) then [] else [s[0]] + LeadingDigits(s[1..], radix)
  }

  /** The value of a digit string read in the given radix, most significant digit first. */
  function DigitsValue(ds: string, radix: nat): nat
  {
    if ds == [] then 0
    else DigitsValue(ds[..|ds| - 1], radix) * radix + DigitValue(ds[|ds| - 1])
  }

  predicate HasHexPrefix(s: string)
  {
    |s| >= 2 && s[0] == '0' && (s[1] == 'x' || s[1] == 'X')
  }

  /** The digits after an optional leading sign. */
  function UnsignedPart(t: string): string
  {
    if |t| > 0 && (t[0] == '-' || t[0] == '+') then t[1..] else t
  }

  /**
   * Reads hexadecimal digits after a "0x"/"0X" prefix and decimal digits
   * otherwise, stopping at the first character that is not a digit; None
   * when there is no digit at all.
   */
  function ParseUnsigned(u: string): Option<nat>
  {
    var radix := if HasHexPrefix(u) then 16 else 10;
    var ds := LeadingDigits(if radix == 16 then u[2..] else u, radix);
    if ds == [] then None else Some(DigitsValue(ds, radix))
  }

  /**
   * `parseInt(s)` with no radix: skip leading white space, take an optional
   * sign, then read the digits as ParseUnsigned does. None stands for NaN.
   */
  function ParseInt(s: string): Option<int>
  {
    var t := JsString.TrimStart(s);
    match ParseUnsigned(UnsignedPart(t))
    case None => None
    case Some(v) => if |t| > 0 && t[0] == '-' then Some(-(v as int)) else Some(v as int)
  }

  // ---------------------------------------------------------------------
  // toString and padStart
  // ---------------------------------------------------------------------

  function DecimalDigit(d: nat): char
    requires d < 10
  {
    ('0' as int + d) as char
  }

  /** `n.toString()` for a non-negative integer: its decimal digits, without leading zeros. */
  function NatToString(n: nat): (s: string)
    ensures |s| > 0
    ensures forall k :: 0 <= k < |s| ==> IsDecimalDigit(s[k])
    ensures |s| > 1 ==> s[0] != '0'
  {
    if n < 10 then [DecimalDigit(n)] else NatToString(n / 10) + [DecimalDigit(n % 10)]
  }

  function Repeat(c: char, n: nat): (s: string)
    ensures |s| == n && forall k :: 0 <= k < n ==> s[k] == c
  {
    if n == 0 then [] else [c] + Repeat(c, n - 1)
  }

  /** `s.padStart(width, c)` with a one-character fill. */
  function PadStart(s: string, width: nat, c: char): (r: string)
    ensures |r| == if |s| >= width then |s| else width
    ensures r[|r| - |s|..] == s
    ensures forall k :: 0 <= k < |r| - |s| ==> r[k] == c
  {
    if |s| >= width then s else Repeat(c, width - |s|) + s
  }

  // ---------------------------------------------------------------------
  // Round trip: parseInt reads back a zero-padded decimal rendering
  // ---------------------------------------------------------------------

  lemma {:induction false} DigitsValueOfDecimal(n: nat)
    ensures DigitsValue(NatToString(n), 10) == n
  {
    if n >= 10 {
      var s := NatToString(n);
      assert s[..|s| - 1] == NatToString(n / 10);
      DigitsValueOfDecimal(n / 10);
    }
  }

  lemma {:induction false} LeadingZeroIgnored(s: string)
    ensures DigitsValue(['0'] + s, 10) == DigitsValue(s, 10)
    decreases |s|
  {
    if s != [] {
      var t := ['0'] + s;
      assert t[..|t| - 1] == ['0'] + s[..|s| - 1];
      LeadingZeroIgnored(s[..|s| - 1]);
    }
  }

  lemma {:induction false} LeadingZerosIgnored(z: nat, s: string)
    ensures DigitsValue(Repeat('0', z) + s, 10) == DigitsValue(s, 10)
  {
    if z > 0 {
      var shorter := Repeat('0', z - 1) + s;
      assert Repeat('0', z) == ['0'] + Repeat('0', z - 1);
      assert Repeat('0', z) + s == ['0'] + shorter;
      LeadingZeroIgnored(shorter);
      LeadingZerosIgnored(z - 1, s);
    } else {
      assert Repeat('0', z) + s == s;
    }
  }

  lemma {:induction false} AllDigitsAreLeading(s: string)
    requires forall k :: 0 <= k < |s| ==> IsDecimalDigit(s[k])
    ensures LeadingDigits(s, 10) == s
  {
    if s != [] {
      AllDigitsAreLeading(s[1..]);
    }
  }

  /** A non-empty string of decimal digits has neither a sign nor a hexadecimal prefix. */
  lemma DecimalDigitsUnprefixed(p: string)
    requires p != [] && forall k :: 0 <= k < |p| ==> IsDecimalDigit(p[k])
    ensures UnsignedPart(p) == p && !HasHexPrefix(p)
  {
  }

  /** A non-empty string of decimal digits is read whole, in base 10. */
  lemma ParseUnsignedDecimal(p: string)
    requires p != [] && forall k :: 0 <= k < |p| ==> IsDecimalDigit(p[k])
    ensures UnsignedPart(p) == p
    ensures ParseUnsigned(p) == Some(DigitsValue(p, 10))
  {
    DecimalDigitsUnprefixed(p);
    AllDigitsAreLeading(p);
  }

  /** `parseInt` of a non-empty string of decimal digits is the value of those digits. */
  lemma ParseDecimalDigits(p: string)
    requires p != [] && forall k :: 0 <= k < |p| ==> IsDecimalDigit(p[k])
    ensures ParseInt(p) == Some(DigitsValue(p, 10) as int)
  {
    JsString.TrimStartKeepsNonSpace(p);
    ParseUnsignedDecimal(p);
  }

  /** A zero-padded decimal rendering of n has the value n. */
  lemma PaddedDecimalValue(n: nat, width: nat)
    ensures DigitsValue(PadStart(NatToString(n), width, '0'), 10) == n
  {
    var s := NatToString(n);
    DigitsValueOfDecimal(n);
    if |s| < width {
      LeadingZerosIgnored(width - |s|, s);
    }
  }

  /** `parseInt` of a zero-padded decimal rendering of n gives n back. */
  lemma ParsePaddedDecimal(n: nat, width: nat)
    ensures ParseInt(PadStart(NatToString(n), width, '0')) == Some(n)
  {
    var s := NatToString(n);
    var p := PadStart(s, width, '0');
    forall k | 0 <= k < |p| ensures IsDecimalDigit(p[k]) {
      if k >= |p| - |s| {
        assert p[k] == p[|p| - |s|..][k - (|p| - |s|)];
      }
    }
    ParseDecimalDigits(p);
    PaddedDecimalValue(n, width);
  }
}
