/**
 * The slice of JavaScript value semantics the catalog front end relies on:
 * the JSON values an API response can hold (plus `undefined`, the result of
 * reading a missing property), truthiness and the `||` operator, property
 * access, and the `String(...)` and `Number(...)` conversions.
 */
module JsValues {

  /** A JSON value as parsed by `res.json()`, plus `undefined`. JSON numbers
      are modelled as integers. */
  datatype Value =
    | Undefined
    | Null
    | Bool(b: bool)
    | Num(n: int)
    | Str(s: string)
    | Arr(elems: seq<Value>)
    | Obj(fields: map<string, Value>)

  /** The result of `Number(...)`: an integer, or `NaN`. */
  datatype JsNumber = Finite(i: int) | NaN

  /** Either a value, or an exception thrown while computing it (a
      `TypeError`, or a failed `fetch`/`res.json()`). */
  datatype Completion<T> = Normal(value: T) | Throw

  predicate Nullish(v: Value) {
    v == Undefined || v == Null
  }

  /** JavaScript's ToBoolean: `undefined`, `null`, `false`, `0` and `""`
      are falsy; every array and object (even an empty one) is truthy. */
  predicate Truthy(v: Value)
    ensures Nullish(v) ==> !Truthy(v)
    ensures v.Arr? || v.Obj? ==> Truthy(v)
  {
    match v
    case Undefined => false
    case Null => false
    case Bool(b) => b
    case Num(n) => n != 0
    case Str(s) => s != ""
    case Arr(_) => true
    case Obj(_) => true
  }

  /** `a || b`: the left operand when it is truthy, else the right one. */
  function Or(a: Value, b: Value): Value
  {
    if Truthy(a) then a else b
  }

  /** The value a chain `vals[0] || vals[1] || ... || fallback` yields: the
      first truthy candidate, or the fallback when every candidate is falsy. */
  function FirstTruthy(vals: seq<Value>, fallback: Value): (r: Value)
    ensures (forall i :: 0 <= i < |vals| ==> !Truthy(vals[i])) ==> r == fallback
    ensures forall k :: 0 <= k < |vals| && Truthy(vals[k]) && (forall j :: 0 <= j < k ==> !Truthy(vals[j]))
                        ==> r == vals[k]
    ensures r == fallback || Truthy(r)
  {
    if vals == [] then fallback
    else if Truthy(vals[0]) then vals[0]
    else
      var tail := vals[1..];
      var rest := FirstTruthy(tail, fallback);
      assert forall k :: 1 <= k < |vals| && Truthy(vals[k]) && (forall j :: 0 <= j < k ==> !Truthy(vals[j]))
                         ==> rest == vals[k] by {
        forall k | 1 <= k < |vals| && Truthy(vals[k]) && (forall j :: 0 <= j < k ==> !Truthy(vals[j]))
          ensures rest == vals[k]
        {
          assert tail[k - 1] == vals[k];
          assert forall j :: 0 <= j < k - 1 ==> tail[j] == vals[j + 1];
        }
      }
      assert (forall i :: 0 <= i < |vals| ==> !Truthy(vals[i])) ==> forall i :: 0 <= i < |tail| ==> !Truthy(tail[i]) by {
        assert forall i :: 0 <= i < |tail| ==> tail[i] == vals[i + 1];
      }
      rest
  }

  /** One more candidate in front of a chain is one more `||` in front of it. */
  lemma FirstTruthyCons(v: Value, rest: seq<Value>, fallback: Value)
    ensures FirstTruthy([v] + rest, fallback) == Or(v, FirstTruthy(rest, fallback))
  {
    assert ([v] + rest)[1..] == rest;
  }

  /** Property access `v.key` on a value that is not `null`/`undefined`.
      Strings and arrays carry `length`; objects carry their own fields;
      every other property read yields `undefined`. */
  function Get(v: Value, key: string): Value
    requires !Nullish(v)
  {
    match v
    case Obj(m) => if key in m then m[key] else Undefined
    case Str(s) => if key == "length" then Num(|s|) else Undefined
    case Arr(es) => if key == "length" then Num(|es|) else Undefined
    case _ => Undefined
  }

  /** Optional chaining `v?.key`: `undefined` on `null`/`undefined`. */
  function OptGet(v: Value, key: string): (r: Value)
    ensures Nullish(v) ==> r == Undefined
    ensures v.Obj? ==> r == (if key in v.fields then v.fields[key] else Undefined)
    ensures v.Num? || v.Bool? ==> r == Undefined
  {
    if Nullish(v) then Undefined else Get(v, key)
  }

  // ---------------------------------------------------------------------
  // Decimal text of integers

  function DigitChar(d: nat): char
    requires d < 10
  {
    ('0' as int + d) as char
  }

  predicate IsDigit(c: char) {
    '0' <= c <= '9'
  }

  predicate AllDigits(s: string) {
    forall i :: 0 <= i < |s| ==> IsDigit(s[i])
  }

  /** The shortest decimal digits of a natural number. */
  function Digits(n: nat): (s: string)
    ensures |s| > 0 && AllDigits(s)
  {
    if n < 10 then [DigitChar(n)] else Digits(n / 10) + [DigitChar(n % 10)]
  }

  /** `String(n)` for an integer `n`. */
  function DecimalText(n: int): (s: string)
    ensures |s| > 0
  {
    if n < 0 then "-" + Digits(-n) else Digits(n)
  }

  /** The natural number a string of decimal digits denotes. */
  function ParseDigits(s: string): nat
    requires AllDigits(s)
  {
    if s == [] then 0
    else ParseDigits(s[..|s| - 1]) * 10 + (s[|s| - 1] as int - '0' as int)
  }

  lemma {:induction false} ParseDigitsOfDigits(n: nat)
    ensures ParseDigits(Digits(n)) == n
  {
    if n >= 10 {
      var s := Digits(n / 10) + [DigitChar(n % 10)];
      assert s[..|s| - 1] == Digits(n / 10);
      ParseDigitsOfDigits(n / 10);
    }
  }

  // ---------------------------------------------------------------------
  // String(v)

  /** `arr.join(",")` over already converted elements. */
  function JoinWithCommas(parts: seq<string>): string
  {
    if parts == [] then ""
    else if |parts| == 1 then parts[0]
    else parts[0] + "," + JoinWithCommas(parts[1..])
  }

  /** True when converting `v` to a primitive does not throw. A JSON object
      cannot hold a function, so an own `toString` field is never callable:
      the conversion then falls through to the inherited `valueOf`, which
      returns the object itself, and a `TypeError` is thrown. An array
      converts through `join`, which converts each element that is not
      `null`/`undefined`. */
  predicate Convertible(v: Value)
    decreases v
  {
    match v
    case Obj(m) => "toString" !in m
    case Arr(es) => forall i :: 0 <= i < |es| ==> Convertible(es[i])
    case _ => true
  }

  /** A falsy value always converts. */
  lemma FalsyConverts(v: Value)
    ensures !Truthy(v) ==> Convertible(v)
  {
  }

  /** JavaScript's `String(v)` (also a template literal `${v}` and an
      assignment to `textContent`). An array converts as the comma-joined
      conversions of its elements, with `null`/`undefined` elements as the
      empty string; a plain object as "[object Object]". */
  function ToStr(v: Value): (r: Completion<string>)
    ensures r.Normal? <==> Convertible(v)
    ensures v.Str? ==> r == Normal(v.s)
    ensures v.Num? ==> StringToNumber(r.value) == Finite(v.n)
    ensures v == Arr([]) ==> r == Normal("")
    decreases v
  {
    match v
    case Undefined => Normal("undefined")
    case Null => Normal("null")
    case Bool(b) => Normal(if b then "true" else "false")
    case Num(n) => NumberOfDecimalText(n); Normal(DecimalText(n))
    case Str(s) => Normal(s)
    case Arr(es) =>
      if Convertible(v) then
        Normal(JoinWithCommas(seq(|es|, i requires 0 <= i < |es| =>
          if Nullish(es[i]) then "" else ToStr(es[i]).value)))
      else Throw
    case Obj(m) => if "toString" in m then Throw else Normal("[object Object]")
  }

  // ---------------------------------------------------------------------
  // Number(v)

  predicate IsSpace(c: char) {
    c == ' ' || c == '\t' || c == '\n' || c == '\r' || c == '\U{000B}' || c == '\U{000C}'
    || c == '\U{00A0}' || c == '\U{FEFF}' || c == '\U{2028}' || c == '\U{2029}'
  }

  function TrimStart(s: string): (r: string)
    ensures |r| <= |s|
    ensures r == [] || !IsSpace(r[0])
  {
    if s != [] && IsSpace(s[0]) then TrimStart(s[1..]) else s
  }

  function TrimEnd(s: string): (r: string)
    ensures |r| <= |s|
    ensures r == [] || !IsSpace(r[|r| - 1])
  {
    if s != [] && IsSpace(s[|s| - 1]) then TrimEnd(s[..|s| - 1]) else s
  }

  /** `s.trim()`: leading and trailing white space removed. */
  function Trim(s: string): string {
    TrimEnd(TrimStart(s))
  }

  /** An optional sign followed by one or more decimal digits. */
  predicate IsIntegerLiteral(t: string) {
    (|t| > 0 && AllDigits(t))
    || (|t| > 1 && (t[0] == '-' || t[0] == '+') && AllDigits(t[1..]))
  }

  function ParseIntegerLiteral(t: string): int
    requires IsIntegerLiteral(t)
  {
    if AllDigits(t) then ParseDigits(t)
    else if t[0] == '-' then -(ParseDigits(t[1..]) as int)
    else ParseDigits(t[1..])
  }

  /** `Number(s)` for a string: blank text is 0, an integer literal
      surrounded by white space is its value, anything else is `NaN`. */
  function StringToNumber(s: string): (r: JsNumber)
    ensures Trim(s) == "" ==> r == Finite(0)
    ensures r.Finite? ==> Trim(s) == "" || IsIntegerLiteral(Trim(s))
  {
    var t := Trim(s);
    if t == "" then Finite(0)
    else if IsIntegerLiteral(t) then Finite(ParseIntegerLiteral(t))
    else NaN
  }

  /** JavaScript's `Number(v)`. Arrays and objects convert through their
      string form, as ToPrimitive does, and throw when that conversion does. */
  function ToNumber(v: Value): (r: Completion<JsNumber>)
    ensures r.Normal? <==> Convertible(v)
    ensures v.Num? ==> r == Normal(Finite(v.n))
    ensures v == Undefined ==> r == Normal(NaN)
    ensures v == Null ==> r == Normal(Finite(0))
    ensures v.Str? ==> r == Normal(StringToNumber(v.s))
    ensures v == Arr([]) ==> r == Normal(Finite(0))
    ensures v.Obj? && r.Normal? ==> r.value == NaN
  {
    match v
    case Undefined => Normal(NaN)
    case Null => Normal(Finite(0))
    case Bool(b) => Normal(Finite(if b then 1 else 0))
    case Num(n) => Normal(Finite(n))
    case Str(s) => Normal(StringToNumber(s))
    case Arr(_) =>
      var t := ToStr(v);
      if t.Throw? then Throw else Normal(StringToNumber(t.value))
    case Obj(_) =>
      var t := ToStr(v);
      if t.Throw? then Throw
      else
        assert t.value == "[object Object]";
        assert TrimStart(t.value) == t.value && TrimEnd(t.value) == t.value;
        assert !IsDigit(t.value[0]);
        Normal(StringToNumber(t.value))
  }

  /** An object carrying its own `toString` field cannot be converted:
      `String(o)` and `Number(o)` both throw. */
  lemma OwnToStringThrows(fields: map<string, Value>)
    requires "toString" in fields
    ensures ToStr(Obj(fields)) == Throw && ToNumber(Obj(fields)) == Throw
  {
  }

  /** `Number(String(n)) === n`: the decimal text of an integer reads
      back as that integer. */
  lemma {:induction false} NumberOfDecimalText(n: int)
    ensures StringToNumber(DecimalText(n)) == Finite(n)
  {
    var t := DecimalText(n);
    var m: nat := if n < 0 then -n else n;
    ParseDigitsOfDigits(m);
    assert TrimStart(t) == t by {
      assert IsDigit(t[0]) || t[0] == '-';
    }
    assert TrimEnd(t) == t by {
      assert t[|t| - 1] == Digits(m)[|Digits(m)| - 1];
    }
    if n < 0 {
      assert t[1..] == Digits(m);
      assert !IsDigit(t[0]);
    }
  }

  /** Non-numeric text such as "abc" converts to `NaN`. */
  lemma NumberOfLetters(s: string)
    requires |s| > 0 && forall i :: 0 <= i < |s| ==> 'a' <= s[i] <= 'z'
    ensures StringToNumber(s) == NaN
  {
    assert TrimStart(s) == s;
    assert TrimEnd(s) == s;
  }
}
