/** String operations of the JavaScript and Kotlin standard libraries that
    the core relies on: lower-casing, substring tests, trimming, splitting
    and integer parsing. */
module Text {
  import opened Values

  // ---------------------------------------------------------------------
  // Lower-casing (`String.prototype.toLowerCase`, Kotlin `lowercase()`)
  // ---------------------------------------------------------------------

  /** Lower-case mapping of one character: ASCII letters, the Latin-1
      capitals (Ç, Ö, Ü among them) and the Turkish Ğ and Ş. */
  function LowerChar(c: char): (r: char)
    ensures 'A' <= c <= 'Z' ==> r as int == c as int + 32
    ensures 'a' <= c <= 'z' ==> r == c
  {
    if 'A' <= c <= 'Z' then (c as int + 32) as char
    else if 'À' <= c <= 'Þ' && c != '×' then (c as int + 32) as char
    else if c == 'Ğ' then 'ğ'
    else if c == 'Ş' then 'ş'
    else c
  }

  function ToLower(s: string): (r: string)
    ensures |r| == |s|
    ensures forall i :: 0 <= i < |s| ==> r[i] == LowerChar(s[i])
  {
    seq(|s|, i requires 0 <= i < |s| => LowerChar(s[i]))
  }

  lemma ToLowerIdempotent(s: string)
    ensures ToLower(ToLower(s)) == ToLower(s)
  {
    var t := ToLower(s);
    assert forall i :: 0 <= i < |t| ==> LowerChar(t[i]) == t[i];
  }

  // ---------------------------------------------------------------------
  // Prefixes and substrings
  // ---------------------------------------------------------------------

  predicate StartsWith(s: string, p: string)
  {
    |p| <= |s| && s[..|p|] == p
  }

  /** `s.includes(sub)` / `s.contains(sub)`: some position of `s` starts `sub`. */
  predicate Contains(s: string, sub: string)
    decreases |s|
  {
    StartsWith(s, sub) || (|s| > 0 && Contains(s[1..], sub))
  }

  lemma {:induction false} ContainsAt(s: string, sub: string, i: nat)
    requires i + |sub| <= |s| && s[i..i + |sub|] == sub
    ensures Contains(s, sub)
    decreases i
  {
    if i > 0 {
      assert s[1..][i - 1..i - 1 + |sub|] == sub;
      ContainsAt(s[1..], sub, i - 1);
    }
  }

  lemma {:induction false} ContainsWitness(s: string, sub: string) returns (i: nat)
    requires Contains(s, sub)
    ensures i + |sub| <= |s| && s[i..i + |sub|] == sub
    decreases |s|
  {
    if StartsWith(s, sub) {
      i := 0;
    } else {
      var j := ContainsWitness(s[1..], sub);
      i := j + 1;
      assert s[i..i + |sub|] == s[1..][j..j + |sub|];
    }
  }

  /** A string cannot contain a substring holding a character it lacks. */
  lemma {:induction false} ContainsNeedsChar(s: string, sub: string, c: char)
    requires c in sub && c !in s
    ensures !Contains(s, sub)
    decreases |s|
  {
    if |s| > 0 {
      assert forall x :: x in s[1..] ==> x in s;
      ContainsNeedsChar(s[1..], sub, c);
    }
  }

  /** Case-insensitive containment, as `a.toLowerCase().includes(b.toLowerCase())`. */
  predicate ContainsIgnoreCase(s: string, sub: string)
  {
    Contains(ToLower(s), ToLower(sub))
  }

  // ---------------------------------------------------------------------
  // Blank strings and trimming
  // ---------------------------------------------------------------------

  /** Kotlin `Char.isWhitespace()`: Java whitespace or a Unicode space separator. */
  predicate KotlinWhitespace(c: char)
  {
    c == ' ' || c == '\t' || c == '\n' || c == '\U{000B}' || c == '\U{000C}' || c == '\r'
    || ('\U{001C}' <= c <= '\U{001F}') || c == '\U{00A0}' || c == '\U{1680}'
    || ('\U{2000}' <= c <= '\U{200A}') || c == '\U{2028}' || c == '\U{2029}'
    || c == '\U{202F}' || c == '\U{205F}' || c == '\U{3000}'
  }

  /** Kotlin `isBlank()`: empty or only whitespace. */
  predicate IsBlank(s: string)
  {
    forall i :: 0 <= i < |s| ==> KotlinWhitespace(s[i])
  }

  /** Kotlin `isNullOrBlank()`. */
  predicate IsNullOrBlank(s: Option<string>)
  {
    s.None? || IsBlank(s.value)
  }

  /** The characters `String.prototype.trim` removes: ECMAScript WhiteSpace and
      LineTerminator. */
  predicate JsWhitespace(c: char)
  {
    c == ' ' || c == '\t' || c == '\n' || c == '\U{000B}' || c == '\U{000C}' || c == '\r'
    || c == '\U{00A0}' || c == '\U{FEFF}' || c == '\U{1680}'
    || ('\U{2000}' <= c <= '\U{200A}') || c == '\U{2028}' || c == '\U{2029}'
    || c == '\U{202F}' || c == '\U{205F}' || c == '\U{3000}'
  }

  function TrimStart(s: string): (r: string)
    ensures |r| <= |s| && r == s[|s| - |r|..]
    ensures r == [] || !JsWhitespace(r[0])
    ensures forall i :: 0 <= i < |s| - |r| ==> JsWhitespace(s[i])
  {
    if |s| > 0 && JsWhitespace(s[0]) then TrimStart(s[1..]) else s
  }

  function TrimEnd(s: string): (r: string)
    ensures |r| <= |s| && r == s[..|r|]
    ensures r == [] || !JsWhitespace(r[|r| - 1])
    ensures forall i :: |r| <= i < |s| ==> JsWhitespace(s[i])
  {
    if |s| > 0 && JsWhitespace(s[|s| - 1]) then TrimEnd(s[..|s| - 1]) else s
  }

  /** `String.prototype.trim`. */
  function Trim(s: string): (r: string)
    ensures r == [] || (!JsWhitespace(r[0]) && !JsWhitespace(r[|r| - 1]))
  {
    TrimEnd(TrimStart(s))
  }

  /** Trimming drops a run of white space and stops at the first other character. */
  lemma {:induction false} TrimStartSkips(ws: string, t: string)
    requires forall i :: 0 <= i < |ws| ==> JsWhitespace(ws[i])
    requires t == [] || !JsWhitespace(t[0])
    ensures TrimStart(ws + t) == t
    decreases |ws|
  {
    if |ws| == 0 {
      assert ws + t == t;
    } else {
      assert (ws + t)[1..] == ws[1..] + t;
      TrimStartSkips(ws[1..], t);
    }
  }

  // ---------------------------------------------------------------------
  // Lengths in UTF-16 code units
  // ---------------------------------------------------------------------

  /** The length JavaScript's `length`, Joi's `min`/`max` and Kotlin's
      `String.length` report: UTF-16 code units, two for a character outside
      the Basic Multilingual Plane. */
  function Utf16Length(s: string): (n: nat)
    ensures |s| <= n <= 2 * |s|
  {
    if |s| == 0 then 0 else Utf16Length(s[..|s| - 1]) + (if s[|s| - 1] as int >= 0x1_0000 then 2 else 1)
  }

  /** Lengths add up over concatenation. */
  lemma {:induction false} Utf16LengthAppend(a: string, b: string)
    ensures Utf16Length(a + b) == Utf16Length(a) + Utf16Length(b)
    decreases |b|
  {
    if |b| > 0 {
      var ab := a + b;
      var w := if b[|b| - 1] as int >= 0x1_0000 then 2 else 1;
      assert ab[..|ab| - 1] == a + b[..|b| - 1];
      assert ab[|ab| - 1] == b[|b| - 1];
      assert Utf16Length(ab) == Utf16Length(a + b[..|b| - 1]) + w;
      assert Utf16Length(b) == Utf16Length(b[..|b| - 1]) + w;
      Utf16LengthAppend(a, b[..|b| - 1]);
    } else {
      assert a + b == a;
    }
  }

  /** A text made only of Basic Multilingual Plane characters has as many
      code units as characters. */
  lemma {:induction false} Utf16LengthBmp(s: string)
    requires forall i :: 0 <= i < |s| ==> s[i] as int < 0x1_0000
    ensures Utf16Length(s) == |s|
    decreases |s|
  {
    if |s| > 0 {
      Utf16LengthBmp(s[..|s| - 1]);
    }
  }

  /** Two emoji are four code units: a two-character text can meet a minimum
      length of 3. */
  lemma Utf16LengthEmoji()
    ensures Utf16Length("\U{1F600}\U{1F600}") == 4
  {
    assert "\U{1F600}\U{1F600}"[..1] == "\U{1F600}";
    assert "\U{1F600}"[..0] == "";
  }

  // ---------------------------------------------------------------------
  // Splitting (`String.prototype.split` with a one-character separator)
  // ---------------------------------------------------------------------

  function Split(s: string, d: char): (r: seq<string>)
    ensures |r| >= 1
    ensures forall k :: 0 <= k < |r| ==> d !in r[k]
    decreases |s|
  {
    if |s| == 0 then [""]
    else
      var rest := Split(s[1..], d);
      if s[0] == d then [""] + rest
      else [[s[0]] + rest[0]] + rest[1..]
  }

  function Join(parts: seq<string>, d: char): string
  {
    if |parts| == 0 then ""
    else if |parts| == 1 then parts[0]
    else parts[0] + [d] + Join(parts[1..], d)
  }

  /** Python `sep.join(parts)` / Kotlin `joinToString(sep)`. */
  function JoinWith(parts: seq<string>, sep: string): string
  {
    if |parts| == 0 then ""
    else if |parts| == 1 then parts[0]
    else parts[0] + sep + JoinWith(parts[1..], sep)
  }

  /** Splitting and joining back with the same separator restores the string. */
  lemma {:induction false} JoinSplit(s: string, d: char)
    ensures Join(Split(s, d), d) == s
    decreases |s|
  {
    if |s| > 0 {
      JoinSplit(s[1..], d);
      var rest := Split(s[1..], d);
      if s[0] == d {
        assert s == [d] + s[1..];
      } else {
        assert s == [s[0]] + s[1..];
        if |rest| > 1 {
          assert rest == [rest[0]] + rest[1..];
          assert ([[s[0]] + rest[0]] + rest[1..])[1..] == rest[1..];
        }
      }
    }
  }

  // ---------------------------------------------------------------------
  // Integers
  // ---------------------------------------------------------------------

  predicate IsDecimalDigit(c: char) { '0' <= c <= '9' }

  function HexDigitValue(c: char): (r: int)
    ensures -1 <= r < 16
  {
    if '0' <= c <= '9' then c as int - '0' as int
    else if 'a' <= c <= 'f' then c as int - 'a' as int + 10
    else if 'A' <= c <= 'F' then c as int - 'A' as int + 10
    else -1
  }

  function DigitValue(c: char, radix: nat): (r: int)
    requires radix == 10 || radix == 16
    ensures -1 <= r < radix
    ensures radix == 10 ==> (r >= 0 <==> IsDecimalDigit(c))
  {
    var v := HexDigitValue(c);
    if v < radix then v else -1
  }

  /** Every character of `s` is a digit of `radix`. */
  predicate AllDigits(s: string, radix: nat)
    requires radix == 10 || radix == 16
  {
    forall i :: 0 <= i < |s| ==> DigitValue(s[i], radix) >= 0
  }

  /** Length of the longest prefix of `s` made of digits of `radix`. */
  function DigitRun(s: string, radix: nat): (n: nat)
    requires radix == 10 || radix == 16
    ensures n <= |s|
    ensures forall i :: 0 <= i < n ==> DigitValue(s[i], radix) >= 0
    ensures n < |s| ==> DigitValue(s[n], radix) < 0
  {
    if |s| > 0 && DigitValue(s[0], radix) >= 0 then 1 + DigitRun(s[1..], radix) else 0
  }

  /** Value of a string of digits of `radix`, most significant first. */
  function DigitsValue(s: string, radix: nat): (v: nat)
    requires radix == 10 || radix == 16
    requires AllDigits(s, radix)
  {
    if |s| == 0 then 0
    else DigitsValue(s[..|s| - 1], radix) * radix + DigitValue(s[|s| - 1], radix)
  }

  /** The longest run of digits of `radix` at the start of `body`, read as a
      number; `None` when there is no digit. */
  function ParseDigits(body: string, radix: nat): (r: Option<nat>)
    requires radix == 10 || radix == 16
    ensures r.Some? ==> |body| > 0 && DigitValue(body[0], radix) >= 0
  {
    var n := DigitRun(body, radix);
    if n == 0 then None
    else
      assert AllDigits(body[..n], radix);
      Some(DigitsValue(body[..n], radix))
  }

  /** The magnitude `parseInt` reads after the sign: a `0x`/`0X` prefix
      selects base 16, otherwise base 10. */
  function ParseMagnitude(u: string): (r: Option<nat>)
    ensures r.Some? ==> |u| > 0 && IsDecimalDigit(u[0])
  {
    if |u| >= 2 && u[0] == '0' && (u[1] == 'x' || u[1] == 'X') then ParseDigits(u[2..], 16)
    else ParseDigits(u, 10)
  }

  /** The optional sign in front of the magnitude. */
  function ParseSigned(t: string): (r: Option<int>)
    ensures r.Some? ==> (|t| > 0 && IsDecimalDigit(t[0])) || (|t| > 1 && IsDecimalDigit(t[1]))
  {
    if |t| > 0 && (t[0] == '-' || t[0] == '+') then
      match ParseMagnitude(t[1..])
      case None => None
      case Some(v) =>
        assert t[1..][0] == t[1];
        Some(if t[0] == '-' then -(v as int) else v)
    else
      match ParseMagnitude(t)
      case None => None
      case Some(v) => Some(v)
  }

  /** JavaScript `parseInt(s)` with no radix: leading white space skipped,
      then an optional sign and the magnitude; `None` stands for `NaN`. */
  function ParseInt(s: string): (r: Option<int>)
    ensures r.Some? ==> exists i :: 0 <= i < |s| && IsDecimalDigit(s[i])
  {
    var t := TrimStart(s);
    assert |t| > 0 ==> t[0] == s[|s| - |t|];
    assert |t| > 1 ==> t[1] == s[|s| - |t| + 1];
    ParseSigned(t)
  }

  const IntMin: int := -0x8000_0000
  const IntMax: int := 0x7FFF_FFFF

  /** A non-empty text made only of decimal digits, read as its value;
      `None` for anything else. */
  function DecimalValue(digits: string): (r: Option<nat>)
    ensures r.Some? ==> |digits| > 0 && AllDigits(digits, 10)
  {
    if |digits| == 0 || DigitRun(digits, 10) != |digits| then None
    else
      assert digits[..|digits|] == digits;
      Some(DigitsValue(digits, 10))
  }

  /** Kotlin `String.toIntOrNull()` (ASCII digits): an optional sign followed
      by at least one digit, the value within the 32-bit `Int` range. */
  function ToIntOrNull(s: string): (r: Option<int>)
    ensures r.Some? ==> IntMin <= r.value <= IntMax
    ensures r.Some? ==> |s| > 0 && exists i :: 0 <= i < |s| && IsDecimalDigit(s[i])
  {
    if |s| == 0 then None
    else
      var k := if s[0] == '-' || s[0] == '+' then 1 else 0;
      match DecimalValue(s[k..])
      case None => None
      case Some(v) =>
        assert s[k..][0] == s[k];
        var value := if s[0] == '-' then -(v as int) else v;
        if IntMin <= value <= IntMax then Some(value) else None
  }

  /** A run of digits ends where the first non-digit, or the text, ends. */
  lemma {:induction false} DigitRunOf(digits: string, rest: string, radix: nat)
    requires radix == 10 || radix == 16
    requires AllDigits(digits, radix)
    requires rest == [] || DigitValue(rest[0], radix) < 0
    ensures DigitRun(digits + rest, radix) == |digits|
    decreases |digits|
  {
    if |digits| == 0 {
      assert digits + rest == rest;
    } else {
      assert (digits + rest)[1..] == digits[1..] + rest;
      DigitRunOf(digits[1..], rest, radix);
    }
  }

  lemma Regroup(a: string, b: string, c: string, d: string)
    ensures a + b + c + d == a + (b + (c + d))
  {
  }

  lemma Regroup5(a: string, b: string, c: string, d: string, e: string)
    ensures a + b + c + d + e == a + (b + (c + d + e))
  {
  }

  /** `parseInt` reads past leading white space. */
  lemma ParseIntAfterSpace(ws: string, t: string)
    requires forall i :: 0 <= i < |ws| ==> JsWhitespace(ws[i])
    requires t == [] || !JsWhitespace(t[0])
    ensures ParseInt(ws + t) == ParseSigned(t)
  {
    TrimStartSkips(ws, t);
  }

  /** A magnitude with the sign in front of it. */
  function WithSign(sign: string, v: nat): int
  {
    if sign == "-" then -(v as int) else v
  }

  /** A sign, when present, is read once and applied to the magnitude. */
  lemma SignedOf(sign: string, u: string)
    requires sign == "" || sign == "+" || sign == "-"
    requires sign == "" ==> u == [] || (u[0] != '+' && u[0] != '-')
    ensures ParseSigned(sign + u) ==
      if ParseMagnitude(u).None? then None else Some(WithSign(sign, ParseMagnitude(u).value))
  {
    var t := sign + u;
    if sign == "" {
      assert t == u;
    } else {
      assert t[1..] == u;
    }
  }

  /** A run of digits followed by a non-digit is read as the run's value. */
  lemma DigitsOf(digits: string, rest: string, radix: nat)
    requires radix == 10 || radix == 16
    requires |digits| > 0 && AllDigits(digits, radix)
    requires rest == [] || DigitValue(rest[0], radix) < 0
    ensures ParseDigits(digits + rest, radix) == Some(DigitsValue(digits, radix))
  {
    DigitRunOf(digits, rest, radix);
    assert (digits + rest)[..|digits|] == digits;
  }

  /** Decimal digits followed by a non-digit are read in base 10, unless
      they are a lone `0` that starts a `0x` prefix. */
  lemma MagnitudeDecimal(digits: string, rest: string)
    requires |digits| > 0 && AllDigits(digits, 10)
    requires rest == [] || !IsDecimalDigit(rest[0])
    requires !(digits == "0" && |rest| > 0 && (rest[0] == 'x' || rest[0] == 'X'))
    ensures ParseMagnitude(digits + rest) == Some(DigitsValue(digits, 10))
  {
    var u := digits + rest;
    if |digits| >= 2 {
      assert u[1] == digits[1];
    }
    DigitsOf(digits, rest, 10);
  }

  /** After `0x` or `0X` the rest is read in base 16. */
  lemma HexPrefix(x: char, body: string)
    requires x == 'x' || x == 'X'
    ensures ParseMagnitude(['0', x] + body) == ParseDigits(body, 16)
  {
    assert (['0', x] + body)[2..] == body;
  }

  /** `0x` or `0X`, hex digits, then a non-hex-digit are read in base 16. */
  lemma MagnitudeHex(x: char, digits: string, rest: string)
    requires x == 'x' || x == 'X'
    requires |digits| > 0 && AllDigits(digits, 16)
    requires rest == [] || HexDigitValue(rest[0]) < 0
    ensures ParseMagnitude(['0', x] + digits + rest) == Some(DigitsValue(digits, 16))
  {
    assert ['0', x] + digits + rest == ['0', x] + (digits + rest);
    HexPrefix(x, digits + rest);
    DigitsOf(digits, rest, 16);
  }

  /** White space and a sign in front of a text starting with a digit: the
      sign is applied to the magnitude read from the text. */
  lemma SignedAfterSpace(ws: string, sign: string, u: string)
    requires forall i :: 0 <= i < |ws| ==> JsWhitespace(ws[i])
    requires sign == "" || sign == "+" || sign == "-"
    requires |u| > 0 && IsDecimalDigit(u[0])
    ensures ParseInt(ws + (sign + u)) ==
      if ParseMagnitude(u).None? then None else Some(WithSign(sign, ParseMagnitude(u).value))
  {
    var t := sign + u;
    assert t[0] == if sign == "" then u[0] else sign[0];
    ParseIntAfterSpace(ws, t);
    SignedOf(sign, u);
  }

  /** The value `parseInt` gives a decimal numeral: white space, a sign, the
      digits, then anything that is not a digit (and does not turn a lone
      `0` into a `0x` prefix). */
  lemma ParseIntDecimal(ws: string, sign: string, digits: string, rest: string)
    requires forall i :: 0 <= i < |ws| ==> JsWhitespace(ws[i])
    requires sign == "" || sign == "+" || sign == "-"
    requires |digits| > 0 && AllDigits(digits, 10)
    requires rest == [] || !IsDecimalDigit(rest[0])
    requires !(digits == "0" && |rest| > 0 && (rest[0] == 'x' || rest[0] == 'X'))
    ensures ParseInt(ws + sign + digits + rest) == Some(WithSign(sign, DigitsValue(digits, 10)))
  {
    Regroup(ws, sign, digits, rest);
    assert (digits + rest)[0] == digits[0];
    SignedAfterSpace(ws, sign, digits + rest);
    MagnitudeDecimal(digits, rest);
  }

  /** The value `parseInt` gives a hexadecimal numeral: white space, a sign,
      `0x` or `0X`, the hex digits, then anything that is not a hex digit. */
  lemma ParseIntHex(ws: string, sign: string, x: char, digits: string, rest: string)
    requires forall i :: 0 <= i < |ws| ==> JsWhitespace(ws[i])
    requires sign == "" || sign == "+" || sign == "-"
    requires x == 'x' || x == 'X'
    requires |digits| > 0 && AllDigits(digits, 16)
    requires rest == [] || HexDigitValue(rest[0]) < 0
    ensures ParseInt(ws + sign + ['0', x] + digits + rest) == Some(WithSign(sign, DigitsValue(digits, 16)))
  {
    Regroup5(ws, sign, ['0', x], digits, rest);
    assert (['0', x] + digits + rest)[0] == '0';
    SignedAfterSpace(ws, sign, ['0', x] + digits + rest);
    MagnitudeHex(x, digits, rest);
  }

  /** `parseInt` gives `NaN` exactly when no digit follows the white space
      and the sign: nothing at all, a non-digit, or a `0x` prefix with no
      hex digit after it. */
  lemma ParseIntNaN(ws: string, sign: string, rest: string)
    requires forall i :: 0 <= i < |ws| ==> JsWhitespace(ws[i])
    requires sign == "" || sign == "+" || sign == "-"
    requires sign == "" ==> rest == [] || (!JsWhitespace(rest[0]) && rest[0] != '+' && rest[0] != '-')
    ensures ParseInt(ws + sign + rest).None? <==>
      || rest == []
      || !IsDecimalDigit(rest[0])
      || (|rest| >= 2 && rest[0] == '0' && (rest[1] == 'x' || rest[1] == 'X')
          && (|rest| == 2 || HexDigitValue(rest[2]) < 0))
  {
    assert ws + sign + rest == ws + (sign + rest) by {
      Regroup(ws, sign, rest, []);
      assert rest + [] == rest;
    }
    assert |sign + rest| > 0 ==> (sign + rest)[0] == if sign == "" then rest[0] else sign[0];
    ParseIntAfterSpace(ws, sign + rest);
    SignedOf(sign, rest);
    if |rest| >= 2 && rest[0] == '0' && (rest[1] == 'x' || rest[1] == 'X') && |rest| > 2 {
      assert rest[2..][0] == rest[2];
    }
  }

  /** A text with an optional sign and then only decimal digits. */
  predicate SignedDigits(s: string)
  {
    var k := if |s| > 0 && (s[0] == '-' || s[0] == '+') then 1 else 0;
    k < |s| && forall i :: k <= i < |s| ==> IsDecimalDigit(s[i])
  }

  /** `toIntOrNull` reads a sign and decimal digits as their value, or null
      when that value is outside the 32-bit range. */
  lemma ToIntOrNullValue(sign: string, digits: string)
    requires sign == "" || sign == "+" || sign == "-"
    requires |digits| > 0 && AllDigits(digits, 10)
    ensures SignedDigits(sign + digits)
    ensures var v := WithSign(sign, DigitsValue(digits, 10));
      ToIntOrNull(sign + digits) == if IntMin <= v <= IntMax then Some(v) else None
  {
    assert IsDecimalDigit(digits[0]) by {
      assert DigitValue(digits[0], 10) >= 0;
    }
    ToIntOrNullOf(sign, digits);
    DecimalValueOf(digits);
    assert SignedDigits(sign + digits) by {
      var s := sign + digits;
      var k := if sign == "" then 0 else 1;
      assert s[0] == (if sign == "" then digits[0] else sign[0]);
      forall i | k <= i < |s|
        ensures IsDecimalDigit(s[i])
      {
        assert s[i] == digits[i - k];
        assert DigitValue(digits[i - k], 10) >= 0;
      }
    }
  }

  /** A non-empty run of decimal digits is read as its value. */
  lemma DecimalValueOf(digits: string)
    requires |digits| > 0 && AllDigits(digits, 10)
    ensures DecimalValue(digits) == Some(DigitsValue(digits, 10))
  {
    DigitRunOf(digits, [], 10);
    assert digits + [] == digits;
  }

  /** A sign in front of a text starting with a digit is read once, and the
      signed value of the rest is kept when it fits in 32 bits. */
  lemma ToIntOrNullOf(sign: string, digits: string)
    requires sign == "" || sign == "+" || sign == "-"
    requires |digits| > 0 && IsDecimalDigit(digits[0])
    ensures ToIntOrNull(sign + digits) ==
      if DecimalValue(digits).None? then None
      else
        var value := WithSign(sign, DecimalValue(digits).value);
        if IntMin <= value <= IntMax then Some(value) else None
  {
    var s := sign + digits;
    var k := if sign == "" then 0 else 1;
    assert s[k..] == digits;
    assert s[0] == (if sign == "" then digits[0] else sign[0]);
  }

  /** Anything else is null: only a sign and decimal digits are read. */
  lemma ToIntOrNullShape(s: string)
    ensures ToIntOrNull(s).Some? ==> SignedDigits(s)
  {
    if ToIntOrNull(s).Some? {
      var k := if s[0] == '-' || s[0] == '+' then 1 else 0;
      var digits := s[k..];
      assert DecimalValue(digits).Some?;
      forall i | k <= i < |s| ensures IsDecimalDigit(s[i]) {
        assert s[i] == digits[i - k];
      }
    }
  }

  // ---------------------------------------------------------------------
  // Array prefixes (`Array.prototype.slice(0, n)`)
  // ---------------------------------------------------------------------

  /** `s.slice(0, n)`: a non-negative `n` keeps at most `n` items, a negative
      one drops `-n` items from the end. */
  function SliceTo<T>(s: seq<T>, n: int): (r: seq<T>)
    ensures |r| <= |s| && r == s[..|r|]
    ensures n >= 0 ==> |r| == if n < |s| then n else |s|
    ensures n < 0 ==> |r| == if |s| + n > 0 then |s| + n else 0
  {
    if n >= 0 then (if n < |s| then s[..n] else s)
    else if |s| + n > 0 then s[..|s| + n] else []
  }
}
