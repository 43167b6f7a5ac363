/**
 * The JSON values the warehouse application keeps in its documents, and the
 * pieces of JavaScript's value semantics its logic depends on: truthiness and
 * `||`, `parseInt`, the conversion `Number(...)` behind `<`, and `<` itself.
 */
module JsValue {
  import opened Wrappers
  import JsString

  /**
   * A point in time, as `new Date()` yields it: `day` is the calendar day that
   * `toDateString()` shows for it, `millis` its time value. Only the equality
   * of days is ever used.
   */
  datatype Instant = Instant(day: int, millis: int)

  /**
   * A JSON scalar as the application stores it. Numbers are integers; a
   * `Stamp` stands for the ISO text that `toISOString()` produces for an
   * instant.
   */
  datatype Value = Int(n: int) | Str(s: string) | Stamp(at: Instant) | Null

  /** A document: a JSON object from property names to values. */
  type Doc = map<string, Value>

  /** `d.k`: `None` stands for `undefined`, the value of a missing property. */
  function Get(d: Doc, k: string): Option<Value> {
    if k in d then Some(d[k]) else None
  }

  /** JavaScript truthiness; `None` is `undefined`. */
  predicate Truthy(v: Option<Value>) {
    match v
    case None => false
    case Some(Int(n)) => n != 0
    case Some(Str(s)) => s != ""
    case Some(Stamp(_)) => true
    case Some(Null) => false
  }

  /** `x || d`: the left operand when it is truthy, otherwise the right one. */
  function Or(x: Option<Value>, d: Value): Value {
    if Truthy(x) then x.value else d
  }

  // ---------------------------------------------------------------------
  // Digits
  // ---------------------------------------------------------------------

  /** The value of `c` read as a digit of base up to 16. */
  function DigitValue(c: char): Option<nat> {
    if '0' <= c <= '9' then Some(c as int - '0' as int)
    else if 'a' <= c <= 'f' then Some(c as int - 'a' as int + 10)
    else if 'A' <= c <= 'F' then Some(c as int - 'A' as int + 10)
    else None
  }

  predicate IsDigit(c: char, radix: nat) {
    DigitValue(c).Some? && DigitValue(c).value < radix
  }

  /** The length of the longest prefix of `s` made of digits of `radix`. */
  function DigitRun(s: string, radix: nat): (n: nat)
    ensures n <= |s|
    ensures forall i :: 0 <= i < n ==> IsDigit(s[i], radix)
    ensures n == |s| || !IsDigit(s[n], radix)
  {
    if |s| > 0 && IsDigit(s[0], radix) then 1 + DigitRun(s[1..], radix) else 0
  }

  /** The number a string of digits denotes in `radix`, most significant first. */
  function DigitsValue(ds: string, radix: nat): int
    requires forall i :: 0 <= i < |ds| ==> IsDigit(ds[i], radix)
  {
    if ds == [] then 0
    else
      var last := ds[|ds| - 1];
      assert IsDigit(last, radix);
      DigitsValue(ds[..|ds| - 1], radix) * radix + DigitValue(last).value
  }

  /** The decimal digit for `d < 10`. */
  function DecimalDigit(d: nat): (c: char)
    requires d < 10
    ensures IsDigit(c, 10) && DigitValue(c) == Some(d)
  {
    ('0' as int + d) as char
  }

  /** The decimal digits of `n`, as `String(n)` writes a non-negative integer. */
  function DecimalText(n: nat): (t: string)
    ensures |t| >= 1
    ensures forall i :: 0 <= i < |t| ==> IsDigit(t[i], 10)
  {
    if n < 10 then [DecimalDigit(n)] else DecimalText(n / 10) + [DecimalDigit(n % 10)]
  }

  /** Reading back the digits of `n` gives `n`. */
  lemma {:induction false} DigitsValueOfDecimalText(n: nat)
    ensures DigitsValue(DecimalText(n), 10) == n
  {
    if n >= 10 {
      DigitsValueOfDecimalText(n / 10);
      var t := DecimalText(n);
      assert t[..|t| - 1] == DecimalText(n / 10);
    }
  }

  /** A string made only of digits is one digit run. */
  lemma {:induction false} DigitRunOfDigits(s: string, radix: nat)
    requires forall i :: 0 <= i < |s| ==> IsDigit(s[i], radix)
    ensures DigitRun(s, radix) == |s|
  {
    if |s| > 0 {
      DigitRunOfDigits(s[1..], radix);
    }
  }

  // ---------------------------------------------------------------------
  // parseInt
  // ---------------------------------------------------------------------

  predicate IsNegative(t: string) {
    |t| > 0 && t[0] == '-'
  }

  /** The text after a leading `-` or `+`. */
  function AfterSign(t: string): string {
    if |t| > 0 && (t[0] == '-' || t[0] == '+') then t[1..] else t
  }

  predicate HasHexPrefix(u: string) {
    |u| >= 2 && u[0] == '0' && (u[1] == 'x' || u[1] == 'X')
  }

  /**
   * The unsigned part of `parseInt`: a `0x`/`0X` prefix selects base 16,
   * anything else base 10, and the longest run of digits that follows is
   * converted; no digit at all is NaN, here `None`.
   */
  function ParseUnsigned(u: string): Option<int> {
    var radix := if HasHexPrefix(u) then 16 else 10;
    var w := if HasHexPrefix(u) then u[2..] else u;
    var n := DigitRun(w, radix);
    if n == 0 then None else Some(DigitsValue(w[..n], radix))
  }

  /**
   * `parseInt(s)` with no radix, on a string: skip leading white space, take
   * an optional sign and read the unsigned part.
   */
  function ParseIntString(s: string): Option<int> {
    var t := JsString.TrimStart(s);
    match ParseUnsigned(AfterSign(t))
    case None => None
    case Some(m) => Some(if IsNegative(t) then -m else m)
  }

  /** A decimal digit is neither white space nor a sign. */
  lemma {:induction false} DigitIsNotSpaceOrSign(c: char)
    requires IsDigit(c, 10)
    ensures !JsString.IsWhiteSpace(c) && c != '-' && c != '+'
  {
  }

  /** Before a digit, `parseInt` skips the white space and reads the unsigned part. */
  lemma {:induction false} ParseIntSkipsWhiteSpace(ws: string, u: string)
    requires JsString.AllWhiteSpace(ws)
    requires u != [] && IsDigit(u[0], 10)
    ensures ParseIntString(ws + u) == ParseUnsigned(u)
  {
    DigitIsNotSpaceOrSign(u[0]);
    TrimStartOfPadded(ws, u);
    assert AfterSign(u) == u;
    assert !IsNegative(u);
  }

  /** A run of decimal digits followed by a non-digit is read as the number it denotes. */
  lemma {:induction false} ParseUnsignedOfDigits(d: string, rest: string)
    requires d != [] && forall i :: 0 <= i < |d| ==> IsDigit(d[i], 10)
    requires rest == [] || !IsDigit(rest[0], 10)
    requires !HasHexPrefix(d + rest)
    ensures ParseUnsigned(d + rest) == Some(DigitsValue(d, 10))
  {
    DigitRunAppend(d, rest, 10);
    assert (d + rest)[..|d|] == d;
  }

  /**
   * `parseInt(v)`: the value is first turned into a string, and the digits
   * an integer is written with read back as that integer. `undefined`,
   * `null` (the text "null") and dates give NaN.
   */
  function ParseInt(v: Option<Value>): Option<int> {
    match v
    case Some(Int(n)) => Some(n)
    case Some(Str(s)) => ParseIntString(s)
    case _ => None
  }

  /** `parseInt(v) || 0`: NaN and zero both give 0. */
  function ParseIntOr0(v: Option<Value>): int {
    match ParseInt(v)
    case Some(n) => n
    case None => 0
  }

  /** The digits of a number never start with `0x`: only 0 itself starts with `0`. */
  lemma {:induction false} NoHexPrefixOfDecimalText(n: nat, rest: string)
    requires rest == [] || !IsDigit(rest[0], 10)
    requires n != 0 || rest == [] || (rest[0] != 'x' && rest[0] != 'X')
    ensures !HasHexPrefix(DecimalText(n) + rest)
  {
    var d := DecimalText(n);
    if n >= 10 {
      DecimalTextLong(n);
      assert (d + rest)[1] == d[1];
      assert IsDigit(d[1], 10);
    } else if n > 0 {
      assert (d + rest)[0] == d[0] == DecimalDigit(n);
    }
  }

  /**
   * Leading white space and text after the digits do not matter to
   * `parseInt`: a decimal number followed by anything that does not continue
   * it reads as that number.
   */
  lemma {:induction false} ParseIntOfPaddedDecimal(ws: string, n: nat, rest: string)
    requires JsString.AllWhiteSpace(ws)
    requires rest == [] || !IsDigit(rest[0], 10)
    requires n != 0 || rest == [] || (rest[0] != 'x' && rest[0] != 'X')
    ensures ParseIntString(ws + DecimalText(n) + rest) == Some(n)
  {
    var d := DecimalText(n);
    assert ws + d + rest == ws + (d + rest);
    ParseIntSkipsWhiteSpace(ws, d + rest);
    NoHexPrefixOfDecimalText(n, rest);
    ParseUnsignedOfDigits(d, rest);
    DigitsValueOfDecimalText(n);
  }

  lemma {:induction false} DecimalTextLong(n: nat)
    requires n >= 10
    ensures |DecimalText(n)| >= 2
  {
    assert |DecimalText(n / 10)| >= 1;
  }

  lemma {:induction false} TrimStartOfPadded(ws: string, s: string)
    requires JsString.AllWhiteSpace(ws)
    requires s == [] || !JsString.IsWhiteSpace(s[0])
    ensures JsString.TrimStart(ws + s) == s
  {
    if ws != [] {
      assert (ws + s)[1..] == ws[1..] + s;
      TrimStartOfPadded(ws[1..], s);
    }
  }

  lemma {:induction false} DigitRunAppend(d: string, rest: string, radix: nat)
    requires forall i :: 0 <= i < |d| ==> IsDigit(d[i], radix)
    requires rest == [] || !IsDigit(rest[0], radix)
    ensures DigitRun(d + rest, radix) == |d|
  {
    if d == [] {
      assert d + rest == rest;
    } else {
      assert (d + rest)[1..] == d[1..] + rest;
      DigitRunAppend(d[1..], rest, radix);
    }
  }

  // ---------------------------------------------------------------------
  // Number(...) and <
  // ---------------------------------------------------------------------

  /**
   * `Number(s)` for the integer forms of a numeric string: surrounding white
   * space is ignored, the empty string is 0, a `0x`, `0o` or `0b` literal
   * (either case) is read in base 16, 8 or 2, otherwise an optional sign and
   * decimal digits; anything else is NaN.
   */
  function StringToNumber(s: string): Option<int> {
    LiteralValue(JsString.Trim(s))
  }

  /** The base a `0x`, `0o` or `0b` prefix selects, and 0 when there is none. */
  function PrefixRadix(t: string): (r: nat)
    ensures r == 0 || r == 2 || r == 8 || r == 16
    ensures r != 0 <==> |t| >= 2 && t[0] == '0' && t[1] in "xXoObB"
  {
    if |t| < 2 || t[0] != '0' then 0
    else if t[1] == 'x' || t[1] == 'X' then 16
    else if t[1] == 'o' || t[1] == 'O' then 8
    else if t[1] == 'b' || t[1] == 'B' then 2
    else 0
  }

  /** The value of a trimmed numeric literal. */
  function LiteralValue(t: string): Option<int> {
    if t == [] then Some(0)
    else if PrefixRadix(t) != 0 then
      var r := PrefixRadix(t);
      if |t| > 2 && DigitRun(t[2..], r) == |t| - 2 then Some(DigitsValue(t[2..], r)) else None
    else
      var u := AfterSign(t);
      if |u| > 0 && DigitRun(u, 10) == |u| then
        var m := DigitsValue(u, 10);
        Some(if IsNegative(t) then -m else m)
      else None
  }

  /**
   * `Number` reads a `0x`, `0o` or `0b` literal, surrounded by white space,
   * in the base its prefix selects.
   */
  lemma {:induction false} StringToNumberOfPrefixed(pre: string, p: char, ds: string, post: string)
    requires JsString.AllWhiteSpace(pre) && JsString.AllWhiteSpace(post)
    requires p in "xXoObB"
    requires ds != [] && forall i :: 0 <= i < |ds| ==> IsDigit(ds[i], PrefixRadix(['0', p]))
    ensures StringToNumber(pre + (['0', p] + ds) + post) == Some(DigitsValue(ds, PrefixRadix(['0', p])))
  {
    var t := ['0', p] + ds;
    var r := PrefixRadix(['0', p]);
    assert t[..2] == ['0', p] && t[2..] == ds;
    assert PrefixRadix(t) == r;
    assert IsDigit(ds[|ds| - 1], r);
    assert t[|t| - 1] == ds[|ds| - 1];
    assert DigitValue(t[|t| - 1]).Some?;
    TrimOfPadded(pre, t, post);
    DigitRunOfDigits(ds, r);
  }

  /** `Number("0b11")` is 3: the binary literal the outbound comparison can meet. */
  lemma {:induction false} StringToNumberOfBinary()
    ensures StringToNumber("0b11") == Some(3)
  {
    var ds := ['1', '1'];
    assert PrefixRadix(['0', 'b']) == 2;
    assert IsDigit('1', 2);
    assert ds[..1] == ['1'] && ['1'][..0] == [];
    assert DigitsValue(ds, 2) == 3;
    StringToNumberOfPrefixed("", 'b', ds, "");
    assert "" + (['0', 'b'] + ds) + "" == "0b11";
  }

  /** The numeric value `<` uses; `undefined` and dates are NaN, `null` is 0. */
  function ToNumber(v: Option<Value>): Option<int> {
    match v
    case None => None
    case Some(Int(n)) => Some(n)
    case Some(Str(s)) => StringToNumber(s)
    case Some(Stamp(_)) => None
    case Some(Null) => Some(0)
  }

  /** Lexicographic order of strings, character by character. */
  predicate StrLess(a: string, b: string) {
    if a == [] then b != []
    else if b == [] then false
    else if a[0] != b[0] then a[0] < b[0]
    else StrLess(a[1..], b[1..])
  }

  /**
   * `x < y`: two strings compare as text; otherwise both sides become
   * numbers, and a NaN on either side makes the comparison false.
   */
  predicate Less(x: Option<Value>, y: Option<Value>) {
    if x.Some? && x.value.Str? && y.Some? && y.value.Str? then StrLess(x.value.s, y.value.s)
    else
      var a, b := ToNumber(x), ToNumber(y);
      a.Some? && b.Some? && a.value < b.value
  }

  /** `undefined` is below nothing and nothing is below it. */
  lemma {:induction false} UndefinedIsIncomparable(v: Option<Value>)
    ensures !Less(None, v) && !Less(v, None)
  {
  }

  /** `Number` reads the digits of a number back, and ignores surrounding white space. */
  lemma {:induction false} StringToNumberOfDecimal(n: nat, pre: string, post: string)
    requires JsString.AllWhiteSpace(pre) && JsString.AllWhiteSpace(post)
    ensures StringToNumber(pre + DecimalText(n) + post) == Some(n)
  {
    var d := DecimalText(n);
    DigitIsNotSpaceOrSign(d[0]);
    DigitIsNotSpaceOrSign(d[|d| - 1]);
    TrimOfPadded(pre, d, post);
    LiteralValueOfDecimalText(n);
  }

  lemma {:induction false} LiteralValueOfDecimalText(n: nat)
    ensures LiteralValue(DecimalText(n)) == Some(n)
  {
    var d := DecimalText(n);
    DigitsValueOfDecimalText(n);
    DigitRunOfDigits(d, 10);
    NoHexPrefixOfDecimalText(n, []);
    assert d + [] == d;
    if n >= 10 {
      DecimalTextLong(n);
      assert IsDigit(d[1], 10);
    }
    assert PrefixRadix(d) == 0;
    DigitIsNotSpaceOrSign(d[0]);
    assert AfterSign(d) == d && !IsNegative(d);
  }

  lemma {:induction false} TrimOfPadded(pre: string, t: string, post: string)
    requires JsString.AllWhiteSpace(pre) && JsString.AllWhiteSpace(post)
    requires t != [] && !JsString.IsWhiteSpace(t[0]) && !JsString.IsWhiteSpace(t[|t| - 1])
    ensures JsString.Trim(pre + t + post) == t
  {
    assert pre + t + post == pre + (t + post);
    TrimStartOfPadded(pre, t + post);
    assert JsString.TrimStart(pre + t + post) == t + post;
    TrimEndOfPadded(t, post);
    assert JsString.Trim(pre + t + post) == JsString.TrimEnd(t + post);
  }

  lemma {:induction false} TrimEndOfPadded(t: string, post: string)
    requires JsString.AllWhiteSpace(post)
    requires t == [] || !JsString.IsWhiteSpace(t[|t| - 1])
    ensures JsString.TrimEnd(t + post) == t
  {
    if post != [] {
      assert (t + post)[..|t + post| - 1] == t + post[..|post| - 1];
      TrimEndOfPadded(t, post[..|post| - 1]);
    } else {
      assert t + post == t;
    }
  }
}
