/**
 * The two JavaScript number conversions the create form uses on its title: the `isNaN` test
 * on a string (whether ToNumber gives a number, i.e. whether the string matches the
 * StringNumericLiteral grammar of section 7.1.4.1.1 of ECMA-262) and `parseInt(s, 10)`
 * (section 19.2.5 of ECMA-262).
 */
module JsNumber {
  import opened Wrappers
  import opened JsText

  /** A number as far as the form needs one: an integer or NaN. */
  datatype Num = Int(value: int) | NaN

  predicate IsDecimalDigits(s: string) {
    |s| > 0 && AllDigits(s)
  }

  predicate IsDigitsOver(s: string, alphabet: set<char>) {
    |s| > 0 && forall i | 0 <= i < |s| :: s[i] in alphabet
  }

  const BinaryDigits: set<char> := {'0', '1'}
  const OctalDigits: set<char> := {'0', '1', '2', '3', '4', '5', '6', '7'}
  const HexDigits: set<char> :=
    {'0', '1', '2', '3', '4', '5', '6', '7', '8', '9', 'a', 'b', 'c', 'd', 'e', 'f', 'A', 'B', 'C', 'D', 'E', 'F'}

  /** NonDecimalIntegerLiteral: `0b…`, `0o…`, `0x…` (no sign allowed). */
  predicate IsNonDecimalInteger(t: string) {
    && |t| >= 3 && t[0] == '0'
    && (|| ((t[1] == 'b' || t[1] == 'B') && IsDigitsOver(t[2..], BinaryDigits))
        || ((t[1] == 'o' || t[1] == 'O') && IsDigitsOver(t[2..], OctalDigits))
        || ((t[1] == 'x' || t[1] == 'X') && IsDigitsOver(t[2..], HexDigits)))
  }

  /** The digits after `e`/`E`, with an optional sign. */
  predicate IsExponentDigits(x: string) {
    IsDecimalDigits(x) || (|x| > 0 && (x[0] == '+' || x[0] == '-') && IsDecimalDigits(x[1..]))
  }

  /** `DecimalDigits`, `DecimalDigits . DecimalDigits?` or `. DecimalDigits`. */
  predicate IsMantissa(m: string) {
    match IndexOf(m, '.')
    case None => IsDecimalDigits(m)
    case Some(d) => AllDigits(m[..d]) && AllDigits(m[d + 1..]) && (d > 0 || d + 1 < |m|)
  }

  /** The first `e` or `E` in `u`. */
  function ExponentMark(u: string): (r: Option<nat>)
    ensures r.Some? ==> r.value < |u| && (u[r.value] == 'e' || u[r.value] == 'E')
    ensures r.None? ==> forall i | 0 <= i < |u| :: u[i] != 'e' && u[i] != 'E'
  {
    if u == [] then None
    else if u[0] == 'e' || u[0] == 'E' then Some(0)
    else
      match ExponentMark(u[1..])
      case None => None
      case Some(k) => Some(k + 1)
  }

  /** StrUnsignedDecimalLiteral */
  predicate IsUnsignedDecimal(u: string) {
    || u == "Infinity"
    || match ExponentMark(u)
       case None => IsMantissa(u)
       case Some(k) => IsMantissa(u[..k]) && IsExponentDigits(u[k + 1..])
  }

  /** StrDecimalLiteral: an optionally signed StrUnsignedDecimalLiteral. */
  predicate IsSignedDecimal(t: string) {
    IsUnsignedDecimal(t) || (|t| > 0 && (t[0] == '+' || t[0] == '-') && IsUnsignedDecimal(t[1..]))
  }

  /**
   * `!isNaN(s)` for a string `s`: after trimming white space the string is empty (which
   * reads as 0) or a StrNumericLiteral.
   */
  predicate IsNumericString(s: string) {
    var t := Trim(s);
    t == [] || IsNonDecimalInteger(t) || IsSignedDecimal(t)
  }

  /** The longest prefix of `s` made of decimal digits. */
  function DigitPrefix(s: string): (r: string)
    ensures AllDigits(r) && StartsWith(s, r)
    ensures |r| == |s| || !IsDigit(s[|r|])
  {
    if s != [] && IsDigit(s[0]) then
      var r := [s[0]] + DigitPrefix(s[1..]);
      assert s[..|r|] == [s[0]] + s[1..][..|r| - 1];
      r
    else
      []
  }

  /**
   * `parseInt(s, 10)`: skip leading white space, read one optional sign, then the longest run
   * of decimal digits; NaN when there is none.
   */
  function ParseInt10(s: string): (r: Num)
    ensures r.NaN? <==> DigitPrefix(SignStripped(TrimStart(s))) == []
  {
    var t := TrimStart(s);
    var negative := t != [] && t[0] == '-';
    var z := DigitPrefix(SignStripped(t));
    if z == [] then NaN else Int(if negative then -(DigitsValue(z) as int) else DigitsValue(z))
  }

  function SignStripped(t: string): string {
    if t != [] && (t[0] == '-' || t[0] == '+') then t[1..] else t
  }

  /** The decimal digits of a natural number form a numeric string, and `parseInt` reads it back. */
  lemma NatStringIsNumeric(n: nat)
    ensures IsNumericString(NatToString(n))
    ensures ParseInt10(NatToString(n)) == Int(n)
  {
    var d := NatToString(n);
    assert !IsSpace(d[0]);
    assert TrimStart(d) == d;
    assert Trim(d) == d by {
      assert !IsSpace(d[|d| - 1]);
    }
    assert ExponentMark(d) == None;
    assert IndexOf(d, '.') == None;
    assert IsSignedDecimal(d);
    DigitPrefixOfDigits(d);
    DigitsValueOfNatToString(n);
  }

  lemma {:induction false} DigitPrefixOfDigits(d: string)
    requires AllDigits(d)
    ensures DigitPrefix(d) == d
  {
    if d != [] {
      DigitPrefixOfDigits(d[1..]);
    }
  }

  /** No character of a numeric string is an `s` or an `S`. */
  predicate NoLetterS(s: string) {
    forall i | 0 <= i < |s| :: s[i] != 's' && s[i] != 'S'
  }

  lemma NoLetterSInSlices(s: string, k: nat)
    requires k < |s| && s[k] != 's' && s[k] != 'S' && NoLetterS(s[..k]) && NoLetterS(s[k + 1..])
    ensures NoLetterS(s)
  {
    forall i | 0 <= i < |s| ensures s[i] != 's' && s[i] != 'S' {
      if i < k {
        assert s[i] == s[..k][i];
      } else if i > k {
        assert s[i] == s[k + 1..][i - k - 1];
      }
    }
  }

  lemma MantissaHasNoLetterS(m: string)
    requires IsMantissa(m)
    ensures NoLetterS(m)
  {
    match IndexOf(m, '.')
    case None =>
    case Some(d) => NoLetterSInSlices(m, d);
  }

  lemma UnsignedDecimalHasNoLetterS(u: string)
    requires IsUnsignedDecimal(u)
    ensures NoLetterS(u)
  {
    if u != "Infinity" {
      match ExponentMark(u)
      case None => MantissaHasNoLetterS(u);
      case Some(k) =>
        MantissaHasNoLetterS(u[..k]);
        var x := u[k + 1..];
        if !IsDecimalDigits(x) {
          NoLetterSInSlices(x, 0);
        }
        NoLetterSInSlices(u, k);
    }
  }

  lemma NonDecimalHasNoLetterS(t: string)
    requires IsNonDecimalInteger(t)
    ensures NoLetterS(t)
  {
    var x := t[2..];
    assert NoLetterS(x);
    assert NoLetterS(t[1..]) by {
      NoLetterSInSlices(t[1..], 0);
    }
    NoLetterSInSlices(t, 0);
  }

  lemma TrimmedNumericHasNoLetterS(t: string)
    requires t == [] || IsNonDecimalInteger(t) || IsSignedDecimal(t)
    ensures NoLetterS(t)
  {
    if t != [] {
      if IsNonDecimalInteger(t) {
        NonDecimalHasNoLetterS(t);
      } else if IsUnsignedDecimal(t) {
        UnsignedDecimalHasNoLetterS(t);
      } else {
        UnsignedDecimalHasNoLetterS(t[1..]);
        NoLetterSInSlices(t, 0);
      }
    }
  }

  /** White space is not a letter, so trimming neither adds nor removes an `s`. */
  lemma TrimKeepsNoLetterS(s: string)
    requires NoLetterS(Trim(s))
    ensures NoLetterS(s)
  {
    var t := Trim(s);
    var lead := TrimPadding(s);
    forall i | 0 <= i < |s| ensures s[i] != 's' && s[i] != 'S' {
      if lead <= i < lead + |t| {
        assert s[i] == t[i - lead];
      }
    }
  }

  lemma NumericStringHasNoLetterS(s: string)
    requires IsNumericString(s)
    ensures NoLetterS(s)
  {
    TrimmedNumericHasNoLetterS(Trim(s));
    TrimKeepsNoLetterS(s);
  }
}
