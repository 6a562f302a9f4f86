/** The fragment of JavaScript semantics the backend relies on: values that can
    come out of JSON (plus `undefined`), truthiness, `||`, property reads,
    string conversion in template literals, and the string methods
    `indexOf`, `lastIndexOf` and `slice`. Numbers are integers. */
module Js {

  /** A JavaScript value as it arrives from JSON, a request body or a database
      row: `undefined`, `null`, booleans, (integer) numbers, strings, arrays
      and plain objects. */
  datatype Value =
    | Undefined
    | Null
    | Bool(b: bool)
    | Num(n: int)
    | Str(s: string)
    | Arr(items: seq<Value>)
    | Obj(fields: map<string, Value>)

  datatype Option<T> = None | Some(value: T)

  /** Either a value, or an exception thrown with the given message. */
  datatype Result<T> = Ok(value: T) | Fail(message: string)

  const TypeErrorMessage := "Cannot read properties of undefined or null"

  /** ToBoolean: `undefined`, `null`, `false`, `0` and `""` are falsy. */
  predicate Truthy(v: Value) {
    match v
    case Undefined => false
    case Null => false
    case Bool(b) => b
    case Num(n) => n != 0
    case Str(s) => s != ""
    case Arr(_) => true
    case Obj(_) => true
  }

  predicate Nullish(v: Value) {
    v.Undefined? || v.Null?
  }

  /** `a || b` */
  function Or(a: Value, b: Value): (r: Value)
    ensures Truthy(r) <==> Truthy(a) || Truthy(b)
    ensures Truthy(a) ==> r == a
    ensures !Truthy(a) ==> r == b
  {
    if Truthy(a) then a else b
  }

  /** The property `key` of a value that is not `undefined` or `null`
      (own properties of plain objects; everything else reads `undefined`). */
  function Member(v: Value, key: string): Value {
    if v.Obj? && key in v.fields then v.fields[key] else Undefined
  }

  /** `v.key` and `const { key } = v`: a TypeError on `undefined` and `null`. */
  function Get(v: Value, key: string): (r: Result<Value>)
    ensures r.Fail? <==> Nullish(v)
    ensures r.Ok? ==> r.value == Member(v, key)
  {
    if Nullish(v) then Fail(TypeErrorMessage) else Ok(Member(v, key))
  }

  /** A field of a parsed request body (`req.body.key`). */
  function Field(body: map<string, Value>, key: string): Value {
    if key in body then body[key] else Undefined
  }

  // ---------------------------------------------------------------------
  // Decimal numerals (Number.prototype.toString for integers)

  function DigitChar(d: nat): char
    requires d < 10
  {
    "0123456789"[d]
  }

  predicate IsDigit(c: char) {
    '0' <= c <= '9'
  }

  function NatToDecimal(n: nat): (r: string)
    ensures |r| > 0 && AllDigits(r)
    decreases n
  {
    if n < 10 then [DigitChar(n)] else NatToDecimal(n / 10) + [DigitChar(n % 10)]
  }

  function IntToDecimal(n: int): string {
    if n < 0 then "-" + NatToDecimal(-n) else NatToDecimal(n)
  }

  function DigitValue(c: char): nat
    requires IsDigit(c)
  {
    c as int - '0' as int
  }

  predicate AllDigits(s: string) {
    forall i :: 0 <= i < |s| ==> IsDigit(s[i])
  }

  /** The value of a string of decimal digits. */
  function DigitsValue(s: string): nat
    requires AllDigits(s)
  {
    if s == [] then 0 else DigitsValue(s[..|s| - 1]) * 10 + DigitValue(s[|s| - 1])
  }

  /** Reading back the numeral that NatToDecimal writes gives the number. */
  lemma {:induction false} NatDecimalRoundTrip(n: nat)
    ensures DigitsValue(NatToDecimal(n)) == n
    decreases n
  {
    if n >= 10 {
      var p := NatToDecimal(n / 10);
      var r := NatToDecimal(n);
      assert r == p + [DigitChar(n % 10)];
      assert r[..|r| - 1] == p;
      NatDecimalRoundTrip(n / 10);
    }
  }

  /** A non-empty string of decimal digits read as a number, as an integer
      column compares with a string key ("7" and "007" both read 7). */
  function ParseDecimal(s: string): (r: Option<nat>)
    ensures r.Some? <==> |s| > 0 && AllDigits(s)
  {
    if |s| > 0 && AllDigits(s) then Some(DigitsValue(s)) else None
  }

  /** Leading zeros do not change the number a key reads as: "007" reads 7. */
  lemma {:induction false} LeadingZeroIgnored(s: string)
    requires AllDigits(s)
    ensures AllDigits("0" + s) && DigitsValue("0" + s) == DigitsValue(s)
    decreases |s|
  {
    var z := "0" + s;
    assert AllDigits(z) by {
      forall i | 0 <= i < |z| ensures IsDigit(z[i]) {
        if i > 0 { assert z[i] == s[i - 1]; }
      }
    }
    if s != [] {
      var init := s[..|s| - 1];
      assert z[..|z| - 1] == "0" + init;
      assert z[|z| - 1] == s[|s| - 1];
      LeadingZeroIgnored(init);
    }
  }

  /** A key with leading zeros selects the same number as without them. */
  lemma LeadingZeroKey(s: string)
    requires |s| > 0 && AllDigits(s)
    ensures ParseDecimal("0" + s) == ParseDecimal(s)
  {
    LeadingZeroIgnored(s);
  }

  /** The numeral of a number reads back as that number. */
  lemma DecimalRoundTrip(n: nat)
    ensures ParseDecimal(NatToDecimal(n)) == Some(n)
  {
    NatDecimalRoundTrip(n);
  }

  // ---------------------------------------------------------------------
  // String conversion (`${v}` in a template literal)

  /** ToString of a value; an array is joined with "," and its `undefined`
      and `null` elements become empty. */
  function ToStr(v: Value): string
    decreases v
  {
    match v
    case Undefined => "undefined"
    case Null => "null"
    case Bool(b) => if b then "true" else "false"
    case Num(n) => IntToDecimal(n)
    case Str(s) => s
    case Arr(items) =>
      JoinWithCommas(seq(|items|, i requires 0 <= i < |items| =>
        if Nullish(items[i]) then "" else ToStr(items[i])))
    case Obj(_) => "[object Object]"
  }

  function JoinWithCommas(parts: seq<string>): string {
    if |parts| == 0 then ""
    else if |parts| == 1 then parts[0]
    else JoinWithCommas(parts[..|parts| - 1]) + "," + parts[|parts| - 1]
  }

  // ---------------------------------------------------------------------
  // String.prototype.indexOf / lastIndexOf / slice, for a one-character
  // search string

  /** `s.indexOf(c)`: the first index of c, or -1. */
  function IndexOf(s: string, c: char): (r: int)
    ensures -1 <= r < |s|
    ensures r == -1 <==> c !in s
    ensures r >= 0 ==> s[r] == c && c !in s[..r]
  {
    if s == [] then -1
    else if s[0] == c then 0
    else
      var k := IndexOf(s[1..], c);
      assert s[1..][..if k < 0 then 0 else k] == s[1..if k < 0 then 1 else k + 1];
      if k < 0 then -1 else k + 1
  }

  /** `s.lastIndexOf(c)`: the last index of c, or -1. */
  function LastIndexOf(s: string, c: char): (r: int)
    ensures -1 <= r < |s|
    ensures r == -1 <==> c !in s
    ensures r >= 0 ==> s[r] == c && c !in s[r + 1..]
  {
    if s == [] then -1
    else if s[|s| - 1] == c then |s| - 1
    else
      var init := s[..|s| - 1];
      var k := LastIndexOf(init, c);
      assert s == init + [s[|s| - 1]];
      if k < 0 then
        assert c !in init;
        -1
      else
        assert s[k + 1..] == init[k + 1..] + [s[|s| - 1]];
        k
  }

  /** How `slice` resolves a relative index against a length: a negative
      index counts from the end, and the result is clamped to [0, len]. */
  function RelativeIndex(rel: int, len: nat): (r: nat)
    ensures r <= len
    ensures 0 <= rel <= len ==> r == rel
    ensures rel < 0 && len + rel >= 0 ==> r == len + rel
    ensures rel < 0 && len + rel < 0 ==> r == 0
    ensures rel > len ==> r == len
  {
    if rel < 0 then (if len + rel < 0 then 0 else len + rel)
    else if rel > len then len
    else rel
  }

  /** `s.slice(start, end)`: empty when the resolved start is not before the
      resolved end. */
  function Slice(s: string, start: int, end: int): (r: string)
    ensures var from, to := RelativeIndex(start, |s|), RelativeIndex(end, |s|);
      (from < to ==> r == s[from..to]) && (from >= to ==> r == "")
  {
    var from, to := RelativeIndex(start, |s|), RelativeIndex(end, |s|);
    if from < to then s[from..to] else ""
  }

  /** A slice holds to - from characters of the resolved indices (none when
      they do not ascend), the k-th being the source's character at from + k. */
  lemma SliceContents(s: string, start: int, end: int)
    ensures var r, from, to := Slice(s, start, end), RelativeIndex(start, |s|), RelativeIndex(end, |s|);
      && |r| == (if from < to then to - from else 0)
      && forall k :: 0 <= k < |r| ==> r[k] == s[from + k]
  {
  }

  /** Within bounds, `slice` is the plain substring. */
  lemma SliceInRange(s: string, i: int, j: int)
    requires 0 <= i <= j <= |s|
    ensures Slice(s, i, j) == s[i..j]
  {
  }

  /** An inclusive slice from i to k starts with s[i] and ends with s[k]. */
  lemma SliceEnds(s: string, i: int, k: int)
    requires 0 <= i <= k < |s|
    ensures var r := Slice(s, i, k + 1);
      r == s[i..k + 1] && |r| > 0 && r[0] == s[i] && r[|r| - 1] == s[k]
  {
  }

  // ---------------------------------------------------------------------
  // Substrings

  predicate IsAt(t: string, s: string, i: int) {
    0 <= i && i + |t| <= |s| && s[i..i + |t|] == t
  }

  ghost predicate Occurs(t: string, s: string) {
    exists i :: IsAt(t, s, i)
  }

  lemma OccursBetween(a: string, t: string, b: string)
    ensures Occurs(t, a + t + b)
  {
    assert IsAt(t, a + t + b, |a|);
  }

  predicate EndsWith(s: string, suffix: string) {
    |suffix| <= |s| && s[|s| - |suffix|..] == suffix
  }

  /** The strings of a sequence, one after another. */
  function Concat(parts: seq<string>): string {
    if parts == [] then "" else parts[0] + Concat(parts[1..])
  }

  lemma {:induction false} ConcatAppend(a: seq<string>, b: seq<string>)
    ensures Concat(a + b) == Concat(a) + Concat(b)
  {
    if a == [] {
      assert a + b == b;
    } else {
      assert (a + b)[0] == a[0];
      assert (a + b)[1..] == a[1..] + b;
      ConcatAppend(a[1..], b);
      calc {
        Concat(a + b);
        a[0] + Concat(a[1..] + b);
        a[0] + (Concat(a[1..]) + Concat(b));
        (a[0] + Concat(a[1..])) + Concat(b);
      }
    }
  }

  lemma ConcatThree(a: string, b: string, c: string)
    ensures Concat([a, b, c]) == a + b + c
  {
    assert [a, b, c][1..] == [b, c];
    assert [b, c][1..] == [c];
    assert [c][1..] == [];
    assert Concat([c]) == c + "" == c;
    assert Concat([b, c]) == b + c;
  }

  lemma ThreeWay<T>(s: seq<T>, i: int, j: int)
    requires 0 <= i <= j <= |s|
    ensures s == s[..i] + s[i..j] + s[j..]
  {
  }

  /** Consecutive parts occur in the concatenation. */
  lemma OccursPart(parts: seq<string>, i: nat, j: nat)
    requires i <= j <= |parts|
    ensures Occurs(Concat(parts[i..j]), Concat(parts))
  {
    var a, b, c := parts[..i], parts[i..j], parts[j..];
    ThreeWay(parts, i, j);
    ConcatAppend(a + b, c);
    ConcatAppend(a, b);
    assert Concat(parts) == Concat(a) + Concat(b) + Concat(c);
    OccursBetween(Concat(a), Concat(b), Concat(c));
  }
}
