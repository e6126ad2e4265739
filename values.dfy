/**
  Values shared by the server model and the browser-side models: optional
  values, the text of a form field, JavaScript numbers, JSON request values,
  and the few string operations the shop's code relies on (trimming,
  lower-casing, substring search, the text after the last dot, and Python's
  float() on a decimal string).
*/
module Values {

  datatype Option<T> = None | Some(value: T)

  datatype Result<T, E> = Ok(value: T) | Err(error: E)

  /** A calendar date (year, month, day); time zones are not modelled. */
  datatype Date = Date(year: int, month: int, day: int)

  /**
    The value of a numeric form field: empty, a numeral with the given value,
    or text that is not a number at all.
  */
  datatype Text = Blank | Numeral(value: real) | Junk

  /** A JavaScript number: NaN or a finite value. Infinities are not modelled. */
  datatype Num = NaN | Val(value: real)

  /** A value as a JSON request body carries it (after decoding on the server). */
  datatype JsonValue = JNull | JNum(num: real) | JStr(str: string)

  /** A JavaScript value as the browser sees it in a decoded JSON response. */
  datatype JsValue = Undefined | JsNull | JsBool(b: bool) | JsNumber(n: Num) | JsString(s: string)

  /** `parseFloat(field.value)`: an empty field is NaN. */
  function ParseFloat(t: Text): (n: Num)
    ensures n.Val? <==> t.Numeral?
    ensures t.Numeral? ==> n.value == t.value
  {
    match t
    case Numeral(v) => Val(v)
    case _ => NaN
  }

  /** `Number(field.value)`, the conversion `*` applies: an empty field is 0. */
  function ToNumber(t: Text): (n: Num)
    ensures n.NaN? <==> t.Junk?
    ensures t.Blank? ==> n == Val(0.0)
  {
    match t
    case Blank => Val(0.0)
    case Numeral(v) => Val(v)
    case Junk => NaN
  }

  /** `n || 0`: NaN (and 0) become 0. */
  function OrZero(n: Num): real
  {
    match n
    case NaN => 0.0
    case Val(v) => v
  }

  /** JavaScript multiplication: NaN is absorbing. */
  function Mul(a: Num, b: Num): Num
  {
    if a.NaN? || b.NaN? then NaN else Val(a.value * b.value)
  }

  /** `JSON.stringify` of a number field: NaN is written as `null`. */
  function NumToJson(n: Num): JsonValue
  {
    match n
    case NaN => JNull
    case Val(v) => JNum(v)
  }

  /** JavaScript truthiness. */
  predicate Truthy(v: JsValue)
  {
    match v
    case Undefined => false
    case JsNull => false
    case JsBool(b) => b
    case JsNumber(n) => n.Val? && n.value != 0.0
    case JsString(s) => s != ""
  }

  // ---------------------------------------------------------------- strings

  /** The ASCII white-space characters removed by both `strip()` and `trim()`. */
  predicate IsSpace(c: char)
  {
    c == ' ' || c == '\t' || c == '\n' || c == '\r' || c == '\U{0B}' || c == '\U{0C}'
  }

  function TrimStart(s: string): string
  {
    if |s| > 0 && IsSpace(s[0]) then TrimStart(s[1..]) else s
  }

  function TrimEnd(s: string): string
  {
    if |s| > 0 && IsSpace(s[|s| - 1]) then TrimEnd(s[..|s| - 1]) else s
  }

  /** `s.strip()` in Python, `s.trim()` in JavaScript (ASCII white space). */
  function Trim(s: string): string
  {
    TrimEnd(TrimStart(s))
  }

  /** Trimming the front drops a run of white space and stops at a non-space. */
  lemma {:induction false} TrimStartShape(s: string)
    ensures var r := TrimStart(s);
      && |r| <= |s| && r == s[|s| - |r|..]
      && (r != [] ==> !IsSpace(r[0]))
      && forall i :: 0 <= i < |s| - |r| ==> IsSpace(s[i])
  {
    if |s| > 0 && IsSpace(s[0]) {
      TrimStartShape(s[1..]);
    }
  }

  /** Trimming the back drops a run of white space and stops at a non-space. */
  lemma {:induction false} TrimEndShape(s: string)
    ensures var r := TrimEnd(s);
      && |r| <= |s| && r == s[..|r|]
      && (r != [] ==> !IsSpace(r[|r| - 1]))
      && forall i :: |r| <= i < |s| ==> IsSpace(s[i])
  {
    if |s| > 0 && IsSpace(s[|s| - 1]) {
      TrimEndShape(s[..|s| - 1]);
    }
  }

  /** A string trims to nothing exactly when it is all white space. */
  lemma TrimEmptyIff(s: string)
    ensures Trim(s) == "" <==> forall i :: 0 <= i < |s| ==> IsSpace(s[i])
  {
    var t := TrimStart(s);
    TrimStartShape(s);
    TrimEndShape(t);
    if t != [] {
      assert t[0] == s[|s| - |t|];
    }
  }

  function LowerChar(c: char): char
  {
    if 'A' <= c <= 'Z' then (c as int + 32) as char else c
  }

  /** `s.lower()` restricted to ASCII letters. */
  function Lower(s: string): (r: string)
    ensures |r| == |s|
    ensures forall i :: 0 <= i < |s| ==> r[i] == LowerChar(s[i])
  {
    seq(|s|, i requires 0 <= i < |s| => LowerChar(s[i]))
  }

  predicate StartsWith(s: string, prefix: string)
  {
    |prefix| <= |s| && s[..|prefix|] == prefix
  }

  predicate OccursAt(s: string, sub: string, i: int)
  {
    0 <= i <= |s| - |sub| && s[i..i + |sub|] == sub
  }

  /** `sub in s`, i.e. `s.includes(sub)`. */
  predicate Contains(s: string, sub: string)
  {
    exists i | 0 <= i <= |s| - |sub| :: OccursAt(s, sub, i)
  }

  /** The text after the last occurrence of `c`: `s.rsplit(c, 1)[1]`. */
  function AfterLast(s: string, c: char): (r: string)
    requires c in s
    ensures c !in r
    ensures |r| < |s| && s == s[..|s| - |r| - 1] + [c] + r
    decreases |s|
  {
    if s[|s| - 1] == c then ""
    else
      var r := AfterLast(s[..|s| - 1], c);
      r + [s[|s| - 1]]
  }

  /** Splitting at the last `c` undoes joining at `c` when the tail has no `c`. */
  lemma {:induction false} AfterLastJoin(stem: string, c: char, ext: string)
    requires c !in ext
    ensures c in stem + [c] + ext
    ensures AfterLast(stem + [c] + ext, c) == ext
    decreases |ext|
  {
    var s := stem + [c] + ext;
    assert s[|stem|] == c;
    if ext == [] {
      assert s[|s| - 1] == c;
    } else {
      var ext' := ext[..|ext| - 1];
      var init := s[..|s| - 1];
      assert init == stem + [c] + ext';
      assert init[|stem|] == c;
      assert s[|s| - 1] == ext[|ext| - 1] != c;
      AfterLastJoin(stem, c, ext');
      assert AfterLast(s, c) == AfterLast(init, c) + [s[|s| - 1]];
      assert ext == ext' + [ext[|ext| - 1]];
    }
  }

  // ------------------------------------------------------ Python's float()

  predicate IsDigit(c: char)
  {
    '0' <= c <= '9'
  }

  predicate AllDigits(s: string)
  {
    forall i :: 0 <= i < |s| ==> IsDigit(s[i])
  }

  function DigitsValue(s: string): nat
    requires AllDigits(s)
  {
    if s == [] then 0
    else DigitsValue(s[..|s| - 1]) * 10 + (s[|s| - 1] as int - '0' as int)
  }

  function Pow10(n: nat): (p: nat)
    ensures p >= 1
  {
    if n == 0 then 1 else 10 * Pow10(n - 1)
  }

  function IndexOf(s: string, c: char): (k: nat)
    requires c in s
    ensures k < |s| && s[k] == c && c !in s[..k]
  {
    if s[0] == c then 0 else 1 + IndexOf(s[1..], c)
  }

  /** An unsigned decimal `digits[.digits]` with at least one digit. */
  function UnsignedDecimal(s: string): Option<real>
  {
    if '.' in s then
      var k := IndexOf(s, '.');
      var whole, frac := s[..k], s[k + 1..];
      if AllDigits(whole) && AllDigits(frac) && |whole| + |frac| > 0 then
        Some(DigitsValue(whole) as real + DigitsValue(frac) as real / Pow10(|frac|) as real)
      else None
    else if s != [] && AllDigits(s) then Some(DigitsValue(s) as real)
    else None
  }

  /**
    Python's `float(s)` on a string: surrounding white space is ignored, an
    optional sign, then a plain decimal numeral; anything else fails.
  */
  function PyFloat(s: string): Option<real>
  {
    var t := Trim(s);
    if t != [] && (t[0] == '-' || t[0] == '+') then
      match UnsignedDecimal(t[1..])
      case Some(v) => Some(if t[0] == '-' then -v else v)
      case None => None
    else UnsignedDecimal(t)
  }
}
