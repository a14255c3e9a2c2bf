/**
 * The slice of JavaScript value semantics the client code depends on:
 * optional values (`undefined`/`null`), numbers that may be NaN, truthiness,
 * thrown `Error` objects, and the decimal `toString` / `parseInt` pair used
 * to persist the signed-in user id.
 */
module Js {

  datatype Option<+T> = None | Some(value: T)

  /** A JavaScript number as the client uses it: an integer, or NaN (what `parseInt` gives for a non-number). */
  datatype Num = Int(n: int) | NaN

  /** Truthiness of a `number | null` value: null, 0 and NaN are falsy. */
  predicate NumTruthy(x: Option<Num>)
  {
    x.Some? && x.value.Int? && x.value.n != 0
  }

  /** Truthiness of a `string | undefined | null` value: only a non-empty string is truthy. */
  predicate StrTruthy(s: Option<string>)
  {
    s.Some? && s.value != ""
  }

  /** `s || fallback` for an optional string. */
  function OrElse(s: Option<string>, fallback: string): string
  {
    if StrTruthy(s) then s.value else fallback
  }

  /**
   * A thrown JavaScript error, as far as the catch blocks look at it: its
   * `message`, and the HTTP status in `error.response?.status` when the error
   * still carries the transport's response.
   */
  datatype JsError = JsError(message: string, responseStatus: Option<int>)

  /** Either the value an async call resolves to, or the error it rejects with. */
  datatype Outcome<+T> = Ok(value: T) | Thrown(error: JsError)

  /** `throw new Error(message)`: a plain error that carries no response. */
  function Fail<T>(message: string): Outcome<T>
  {
    Thrown(JsError(message, None))
  }

  /**
   * The abstract reply of one HTTP call made through the transport: the
   * decoded body on a 2xx answer, or a failure with the HTTP status (None
   * when no response arrived) and the `message` field of the error body.
   */
  datatype Response<+T> = Success(data: T) | HttpError(status: Option<int>, serverMessage: Option<string>)

  /** `Alert.alert(title, message)`: the native dialog a handler shows. */
  datatype Alert = Alert(title: string, message: string)

  // ---------------------------------------------------------------------
  // Whitespace, as `String.prototype.trim` and `parseInt` skip it.
  // ---------------------------------------------------------------------

  /** The WhiteSpace and LineTerminator code points of ECMAScript. */
  predicate IsWhitespace(c: char)
  {
    c == ' ' || c == '\t' || c == '\n' || c == '\r' || c == '\U{000B}' || c == '\U{000C}'
    || c == '\U{00A0}' || c == '\U{1680}' || ('\U{2000}' <= c <= '\U{200A}')
    || c == '\U{2028}' || c == '\U{2029}' || c == '\U{202F}' || c == '\U{205F}'
    || c == '\U{3000}' || c == '\U{FEFF}'
  }

  /** `s` without its leading whitespace. */
  function TrimStart(s: string): (r: string)
    ensures |r| <= |s| && r == s[|s| - |r|..]
    ensures r == [] || !IsWhitespace(r[0])
    ensures forall i :: 0 <= i < |s| - |r| ==> IsWhitespace(s[i])
  {
    if s != [] && IsWhitespace(s[0]) then TrimStart(s[1..]) else s
  }

  /** `s` without its trailing whitespace. */
  function TrimEnd(s: string): (r: string)
    ensures |r| <= |s| && r == s[..|r|]
    ensures r == [] || !IsWhitespace(r[|r| - 1])
    ensures forall i :: |r| <= i < |s| ==> IsWhitespace(s[i])
  {
    if s != [] && IsWhitespace(s[|s| - 1]) then TrimEnd(s[..|s| - 1]) else s
  }

  /** `r` is `s` with only whitespace before index `i` and after `r`. */
  predicate PaddedAt(s: string, r: string, i: int)
  {
    0 <= i <= |s| - |r| && s[i..i + |r|] == r
    && (forall k :: 0 <= k < i ==> IsWhitespace(s[k]))
    && (forall k :: i + |r| <= k < |s| ==> IsWhitespace(s[k]))
  }

  /** `s.trim()`: the text between the leading and the trailing whitespace, starting and ending with a non-whitespace character. */
  function Trim(s: string): (r: string)
    ensures r == [] || (!IsWhitespace(r[0]) && !IsWhitespace(r[|r| - 1]))
    ensures exists i :: PaddedAt(s, r, i)
  {
    var t := TrimStart(s);
    var r := TrimEnd(t);
    assert PaddedAt(s, r, |s| - |t|);
    r
  }

  lemma TrimIdentity(s: string)
    requires s == [] || (!IsWhitespace(s[0]) && !IsWhitespace(s[|s| - 1]))
    ensures Trim(s) == s
  {
  }

  // ---------------------------------------------------------------------
  // Number.prototype.toString and parseInt on integers.
  // ---------------------------------------------------------------------

  function DigitChar(d: nat): (c: char)
    requires d < 10
  {
    ('0' as int + d) as char
  }

  predicate IsDigit(c: char, radix: nat)
  {
    if radix == 16 then ('0' <= c <= '9') || ('a' <= c <= 'f') || ('A' <= c <= 'F')
    else '0' <= c <= '9'
  }

  function DigitValue(c: char): nat
  {
    if '0' <= c <= '9' then c as nat - '0' as nat
    else if 'a' <= c <= 'f' then c as nat - 'a' as nat + 10
    else if 'A' <= c <= 'F' then c as nat - 'A' as nat + 10
    else 0
  }

  /** The value of a digit string read most significant digit first. */
  function DigitsValue(s: string, radix: nat): nat
  {
    if s == [] then 0 else DigitsValue(s[..|s| - 1], radix) * radix + DigitValue(s[|s| - 1])
  }

  /** Length of the longest prefix of `s` made of digits of the radix. */
  function DigitPrefixLength(s: string, radix: nat): (k: nat)
    ensures k <= |s|
    ensures forall i :: 0 <= i < k ==> IsDigit(s[i], radix)
    ensures k < |s| ==> !IsDigit(s[k], radix)
  {
    if s != [] && IsDigit(s[0], radix) then 1 + DigitPrefixLength(s[1..], radix) else 0
  }

  /** Decimal digits of a natural number, without leading zeros. */
  function NatToString(n: nat): (s: string)
    ensures |s| >= 1
    ensures forall i :: 0 <= i < |s| ==> '0' <= s[i] <= '9'
    ensures |s| >= 2 ==> s[0] != '0'
    decreases n
  {
    if n < 10 then [DigitChar(n)] else NatToString(n / 10) + [DigitChar(n % 10)]
  }

  /** `n.toString()` for an integer `n`: a minus sign exactly for a negative number, then decimal digits. */
  function IntToString(n: int): (s: string)
    ensures |s| >= 1
    ensures s[0] == '-' <==> n < 0
    ensures forall i :: (if n < 0 then 1 else 0) <= i < |s| ==> '0' <= s[i] <= '9'
    ensures n < 0 ==> |s| >= 2
  {
    if n < 0 then "-" + NatToString(-n) else NatToString(n)
  }

  /**
   * `parseInt(s)` with no radix argument: skip leading whitespace, take one
   * optional sign, then read an unsigned number.
   */
  function ParseInt(s: string): (r: Num)
    ensures var t := TrimStart(s);
      (t == [] || (!IsDigit(t[0], 10) && t[0] != '-' && t[0] != '+')) ==> r == NaN
    ensures var t := TrimStart(s); t != [] && '1' <= t[0] <= '9' ==> r.Int?
  {
    var t := TrimStart(s);
    if |t| > 0 && t[0] == '-' then Negate(ParseUnsigned(t[1..]))
    else if |t| > 0 && t[0] == '+' then ParseUnsigned(t[1..])
    else ParseUnsigned(t)
  }

  function Negate(x: Num): Num
  {
    if x.Int? then Int(0 - x.n) else NaN
  }

  /**
   * The unsigned part of `parseInt`: a `0x`/`0X` prefix selects radix 16, then
   * the longest run of digits is read; with no digit at all the result is NaN.
   */
  function ParseUnsigned(u: string): Num
  {
    var hex := |u| >= 2 && u[0] == '0' && (u[1] == 'x' || u[1] == 'X');
    var radix := if hex then 16 else 10;
    var v := if hex then u[2..] else u;
    var k := DigitPrefixLength(v, radix);
    if k == 0 then NaN else Int(DigitsValue(v[..k], radix))
  }

  lemma {:induction false} NatToStringValue(n: nat)
    ensures DigitsValue(NatToString(n), 10) == n
    decreases n
  {
    var s := NatToString(n);
    if n >= 10 {
      NatToStringValue(n / 10);
      assert s[..|s| - 1] == NatToString(n / 10);
      assert DigitValue(s[|s| - 1]) == n % 10;
      assert n == (n / 10) * 10 + n % 10;
    } else {
      assert s[..0] == [];
    }
  }

  lemma DecimalDigitsArePrefix(s: string)
    requires forall i :: 0 <= i < |s| ==> '0' <= s[i] <= '9'
    ensures DigitPrefixLength(s, 10) == |s|
  {
    var k := DigitPrefixLength(s, 10);
    if k < |s| {
      assert !IsDigit(s[k], 10);
    }
  }

  lemma ParseUnsignedOfNatToString(n: nat)
    ensures ParseUnsigned(NatToString(n)) == Int(n)
  {
    var digits := NatToString(n);
    DecimalDigitsArePrefix(digits);
    assert digits[..|digits|] == digits;
    NatToStringValue(n);
  }

  lemma TrimStartKeeps(s: string)
    requires s != [] && !IsWhitespace(s[0])
    ensures TrimStart(s) == s
  {
  }

  lemma ParseIntOfNatToString(n: nat)
    ensures ParseInt(NatToString(n)) == Int(n)
  {
    var s := NatToString(n);
    assert !IsWhitespace(s[0]) && s[0] != '-' && s[0] != '+';
    TrimStartKeeps(s);
    ParseUnsignedOfNatToString(n);
  }

  /** A leading minus sign is read as a negation of the unsigned number after it. */
  lemma ParseIntOfMinus(s: string)
    requires s != [] && s[0] == '-'
    ensures ParseInt(s) == Negate(ParseUnsigned(s[1..]))
  {
    assert !IsWhitespace(s[0]);
    TrimStartKeeps(s);
  }

  lemma ParseIntOfNegative(m: nat)
    ensures ParseInt("-" + NatToString(m)) == Int(0 - m)
  {
    var digits := NatToString(m);
    var s := "-" + digits;
    ParseIntOfMinus(s);
    assert s[1..] == digits;
    ParseUnsignedOfNatToString(m);
  }

  /** Leading whitespace does not change what `trimStart` leaves. */
  lemma {:induction false} TrimStartSkips(w: string, s: string)
    requires forall i :: 0 <= i < |w| ==> IsWhitespace(w[i])
    ensures TrimStart(w + s) == TrimStart(s)
    decreases |w|
  {
    if w == [] {
      assert w + s == s;
    } else {
      assert (w + s)[1..] == w[1..] + s;
      TrimStartSkips(w[1..], s);
    }
  }

  /** `parseInt` skips any leading whitespace. */
  lemma ParseIntSkipsLeadingWhitespace(w: string, s: string)
    requires forall i :: 0 <= i < |w| ==> IsWhitespace(w[i])
    ensures ParseInt(w + s) == ParseInt(s)
  {
    TrimStartSkips(w, s);
  }

  /** A `0x` prefix switches to base 16, and reading stops at the first character that is not a hex digit. */
  lemma ParseIntReadsHexPrefix()
    ensures ParseInt("0x1fz") == Int(31)
  {
    var s := "0x1fz";
    assert !IsWhitespace(s[0]) && s[0] != '-' && s[0] != '+';
    TrimStartKeeps(s);
    var v := "1fz";
    assert s[2..] == v;
    assert DigitPrefixLength(v[2..], 16) == 0;
    assert DigitPrefixLength(v, 16) == 2;
    assert v[..2] == "1f" && "1f"[..1] == "1";
    assert DigitsValue("1f", 16) == 31;
    assert ParseUnsigned(s) == Int(31);
  }

  /** Reading back what `toString` wrote gives the same integer: the userId round trip through storage. */
  lemma ParseIntOfIntToString(n: int)
    ensures ParseInt(IntToString(n)) == Int(n)
  {
    if n < 0 {
      var m: nat := 0 - n;
      ParseIntOfNegative(m);
      assert IntToString(n) == "-" + NatToString(m);
    } else {
      ParseIntOfNatToString(n);
    }
  }
}
