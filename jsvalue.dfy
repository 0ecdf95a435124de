/** JavaScript values as they arrive from the listing API's JSON, and the few
    coercions the listing code relies on: truthiness (every `||` fallback),
    `String(x)`, `Number(x)`, property reads with optional chaining, and the
    string helpers `trim`, `toLowerCase`, `toUpperCase`, `includes`, `join`.
    Numbers are integers here; NaN is the `None` of `ToNumber`. */
module JsValue {

  datatype Option<+T> = None | Some(value: T)

  /** A decoded JSON value. An object keeps its entries in enumeration order. */
  datatype Value =
    | Undef
    | Null
    | Bool(b: bool)
    | Num(n: int)
    | Str(s: string)
    | Arr(items: seq<Value>)
    | Obj(fields: seq<(string, Value)>)

  /** JavaScript truthiness: `undefined`, `null`, `false`, `0` and `""` are falsy. */
  predicate Truthy(v: Value) {
    match v
    case Undef => false
    case Null => false
    case Bool(b) => b
    case Num(n) => n != 0
    case Str(s) => s != ""
    case Arr(_) => true
    case Obj(_) => true
  }

  predicate IsNullish(v: Value) {
    v.Undef? || v.Null?
  }

  /** `a || b`. */
  function Or(a: Value, b: Value): (r: Value)
    ensures r == a || r == b
    ensures Truthy(r) <==> Truthy(a) || Truthy(b)
    ensures Truthy(a) ==> r == a
    ensures !Truthy(a) ==> r == b
  {
    if Truthy(a) then a else b
  }

  // ---------------------------------------------------------------------
  // Decimal digits

  predicate IsDigit(c: char) {
    '0' <= c <= '9'
  }

  predicate AllDigits(s: string) {
    forall i :: 0 <= i < |s| ==> IsDigit(s[i])
  }

  function DigitChar(d: nat): (c: char)
    requires d < 10
    ensures IsDigit(c) && c as int - '0' as int == d
  {
    ('0' as int + d) as char
  }

  /** Decimal notation of a natural number, without leading zeros. */
  function NatToString(n: nat): (s: string)
    ensures |s| >= 1 && AllDigits(s)
    ensures s[0] == '0' ==> n == 0
  {
    if n < 10 then [DigitChar(n)] else NatToString(n / 10) + [DigitChar(n % 10)]
  }

  /** Value of a string of decimal digits. */
  function ParseDigits(s: string): nat
    requires AllDigits(s)
  {
    if |s| == 0 then 0
    else ParseDigits(s[..|s| - 1]) * 10 + (s[|s| - 1] as int - '0' as int)
  }

  lemma {:induction false} ParseNatToString(n: nat)
    ensures ParseDigits(NatToString(n)) == n
  {
    if n >= 10 {
      var s := NatToString(n);
      assert s[..|s| - 1] == NatToString(n / 10);
      ParseNatToString(n / 10);
    }
  }

  lemma NatToStringInjective(a: nat, b: nat)
    requires NatToString(a) == NatToString(b)
    ensures a == b
  {
    ParseNatToString(a);
    ParseNatToString(b);
  }

  /** `String(n)` for an integer. */
  function IntToString(n: int): (s: string)
    ensures |s| >= 1
  {
    if n < 0 then "-" + NatToString(-n) else NatToString(n)
  }

  // ---------------------------------------------------------------------
  // Whitespace and trim

  /** The characters of `\s` in a JavaScript regular expression, which are
      also the ones `String.prototype.trim` removes. */
  predicate IsJsSpace(c: char) {
    c == ' ' || c == '\t' || c == '\n' || c == '\r' || c == '\U{0B}' || c == '\U{0C}'
    || c == '\U{A0}' || c == '\U{1680}' || ('\U{2000}' <= c <= '\U{200A}')
    || c == '\U{2028}' || c == '\U{2029}' || c == '\U{202F}' || c == '\U{205F}'
    || c == '\U{3000}' || c == '\U{FEFF}'
  }

  /** The first index at or after i whose character is not whitespace. */
  function SkipSpaces(s: string, i: nat): (j: nat)
    requires i <= |s|
    ensures i <= j <= |s|
    ensures forall k :: i <= k < j ==> IsJsSpace(s[k])
    ensures j == |s| || !IsJsSpace(s[j])
    decreases |s| - i
  {
    if i < |s| && IsJsSpace(s[i]) then SkipSpaces(s, i + 1) else i
  }

  /** j with the whitespace just before it given back: the index after the
      last character before j that is not whitespace. */
  function BackSpaces(s: string, j: nat): (i: nat)
    requires j <= |s|
    ensures i <= j
    ensures forall k :: i <= k < j ==> IsJsSpace(s[k])
    ensures i == 0 || !IsJsSpace(s[i - 1])
  {
    if j > 0 && IsJsSpace(s[j - 1]) then BackSpaces(s, j - 1) else j
  }

  /** `s.trimStart()`. */
  function TrimStart(s: string): (r: string)
    ensures |r| <= |s| && r == s[|s| - |r|..]
    ensures r == [] || !IsJsSpace(r[0])
    ensures forall i :: 0 <= i < |s| - |r| ==> IsJsSpace(s[i])
  {
    s[SkipSpaces(s, 0)..]
  }

  /** `s.trim()`: what lies between the leading and the trailing whitespace. */
  function Trim(s: string): (r: string)
    ensures |r| <= |s|
    ensures r == [] || (!IsJsSpace(r[0]) && !IsJsSpace(r[|r| - 1]))
    ensures r == [] ==> forall k :: 0 <= k < |s| ==> IsJsSpace(s[k])
  {
    var i := SkipSpaces(s, 0);
    var j := BackSpaces(s, |s|);
    if j <= i then [] else s[i..j]
  }

  /** Everything in s before i and from j on is whitespace. */
  predicate SpaceFramed(s: string, i: nat, j: nat) {
    && (forall k :: 0 <= k < i && k < |s| ==> IsJsSpace(s[k]))
    && (forall k :: j <= k < |s| ==> IsJsSpace(s[k]))
  }

  /** Trim removes whitespace at both ends and nothing else: the result is a
      slice of the input, and every character cut off is whitespace. */
  lemma TrimSpec(s: string)
    ensures exists i: nat, j: nat :: i <= j <= |s| && Trim(s) == s[i..j] && SpaceFramed(s, i, j)
  {
    var i := SkipSpaces(s, 0);
    var j := BackSpaces(s, |s|);
    if j <= i {
      assert Trim(s) == s[0..0] && SpaceFramed(s, 0, 0);
    } else {
      assert Trim(s) == s[i..j] && SpaceFramed(s, i, j);
    }
  }

  lemma TrimNoSpaceEnds(s: string)
    requires s == [] || (!IsJsSpace(s[0]) && !IsJsSpace(s[|s| - 1]))
    ensures Trim(s) == s
  {
  }

  // ---------------------------------------------------------------------
  // Conversions

  function Join(parts: seq<string>, sep: string): string
  {
    if |parts| == 0 then ""
    else if |parts| == 1 then parts[0]
    else parts[0] + sep + Join(parts[1..], sep)
  }

  lemma JoinTwo(a: string, b: string, sep: string)
    ensures Join([a, b], sep) == a + sep + b
  {
    assert [a, b][1..] == [b];
  }

  /** `String(v)` (and template-literal interpolation `${v}`). */
  function ToJsString(v: Value): string
  {
    match v
    case Undef => "undefined"
    case Null => "null"
    case Bool(b) => if b then "true" else "false"
    case Num(n) => IntToString(n)
    case Str(s) => s
    case Arr(items) =>
      Join(seq(|items|, i requires 0 <= i < |items| =>
             if IsNullish(items[i]) then "" else ToJsString(items[i])), ",")
    case Obj(_) => "[object Object]"
  }

  /** `Number(s)` for a string: surrounding whitespace is ignored, the empty
      string is 0, an optionally signed run of decimal digits is its value,
      anything else is NaN. */
  function StringToNumber(s: string): Option<int>
  {
    var t := Trim(s);
    if t == "" then Some(0)
    else if |t| > 1 && (t[0] == '-' || t[0] == '+') && AllDigits(t[1..]) then
      var m: int := ParseDigits(t[1..]);
      if t[0] == '-' then Some(-m) else Some(m)
    else if AllDigits(t) then Some(ParseDigits(t))
    else None
  }

  /** `Number(v)`; `None` stands for NaN. */
  function ToNumber(v: Value): Option<int>
  {
    match v
    case Undef => None
    case Null => Some(0)
    case Bool(b) => Some(if b then 1 else 0)
    case Num(n) => Some(n)
    case Str(s) => StringToNumber(s)
    case Arr(_) => StringToNumber(ToJsString(v))
    case Obj(_) => None
  }

  lemma IntToStringTrimmed(n: int)
    ensures Trim(IntToString(n)) == IntToString(n)
  {
    var s := IntToString(n);
    assert !IsJsSpace(s[0]) && !IsJsSpace(s[|s| - 1]);
    TrimNoSpaceEnds(s);
  }

  /** `Number(String(n)) === n`: the decimal text of an integer reads back as
      that integer. */
  lemma {:induction false} NumberOfString(n: int)
    ensures ToNumber(Str(IntToString(n))) == Some(n)
    ensures ToNumber(Str(ToJsString(Num(n)))) == Some(n)
  {
    if n < 0 {
      ParseNatToString(-n);
      SignedDigitsTextValue(NatToString(-n), -n);
    } else {
      ParseNatToString(n);
      DigitsTextValue(NatToString(n), n);
    }
  }

  /** A run of digits reads as its value. */
  lemma DigitsTextValue(s: string, m: nat)
    requires |s| >= 1 && AllDigits(s) && ParseDigits(s) == m
    ensures StringToNumber(s) == Some(m)
  {
    assert IsDigit(s[0]) && IsDigit(s[|s| - 1]);
    TrimNoSpaceEnds(s);
    assert s[0] != '-' && s[0] != '+';
  }

  /** A minus sign followed by a run of digits reads as the negated value. */
  lemma SignedDigitsTextValue(d: string, m: nat)
    requires |d| >= 1 && AllDigits(d) && ParseDigits(d) == m
    ensures StringToNumber("-" + d) == Some(-(m as int))
  {
    var s := "-" + d;
    assert s[1..] == d && s[|s| - 1] == d[|d| - 1];
    assert IsDigit(d[|d| - 1]);
    TrimNoSpaceEnds(s);
  }

  // ---------------------------------------------------------------------
  // Property reads

  /** The value stored under `key` in an object's entries; with duplicate
      keys the last one wins, as `JSON.parse` does. */
  function Lookup(fields: seq<(string, Value)>, key: string): (r: Value)
    ensures r == Undef || exists i :: 0 <= i < |fields| && fields[i] == (key, r)
  {
    if |fields| == 0 then Undef
    else if fields[|fields| - 1].0 == key then fields[|fields| - 1].1
    else Lookup(fields[..|fields| - 1], key)
  }

  /** A canonical array index: digits without a leading zero. */
  predicate IsIndexKey(key: string) {
    |key| > 0 && AllDigits(key) && (key[0] == '0' ==> |key| == 1)
  }

  /** `v?.[key]`: a read on `undefined` or `null` gives `undefined`; an array
      answers its canonical indices; other primitives have no own data. */
  function Get(v: Value, key: string): (r: Value)
    ensures IsNullish(v) ==> r == Undef
  {
    match v
    case Obj(fields) => Lookup(fields, key)
    case Arr(items) =>
      if IsIndexKey(key) && ParseDigits(key) < |items| then items[ParseDigits(key)] else Undef
    case _ => Undef
  }

  lemma GetArrayIndex(items: seq<Value>, i: nat)
    requires i < |items|
    ensures Get(Arr(items), NatToString(i)) == items[i]
  {
    ParseNatToString(i);
  }

  /** `Object.values(v)` for the values that reach it in the listing code.
      An object's entries are taken to be in its enumeration order. */
  function ObjectValues(v: Value): seq<Value>
  {
    match v
    case Obj(fields) => seq(|fields|, i requires 0 <= i < |fields| => fields[i].1)
    case Arr(items) => items
    case Str(s) => seq(|s|, i requires 0 <= i < |s| => Str([s[i]]))
    case _ => []
  }

  // ---------------------------------------------------------------------
  // Case mapping and substring search

  function LowerChar(c: char): char {
    if 'A' <= c <= 'Z' then (c as int + 32) as char else c
  }

  function UpperChar(c: char): char {
    if 'a' <= c <= 'z' then (c as int - 32) as char else c
  }

  /** `s.toLowerCase()` on the ASCII letters. */
  function Lower(s: string): (r: string)
    ensures |r| == |s| && forall i :: 0 <= i < |s| ==> r[i] == LowerChar(s[i])
  {
    seq(|s|, i requires 0 <= i < |s| => LowerChar(s[i]))
  }

  /** `s.toUpperCase()` on the ASCII letters. */
  function Upper(s: string): (r: string)
    ensures |r| == |s| && forall i :: 0 <= i < |s| ==> r[i] == UpperChar(s[i])
  {
    seq(|s|, i requires 0 <= i < |s| => UpperChar(s[i]))
  }

  /** `hay.includes(needle)`, scanning left to right. */
  predicate Contains(hay: string, needle: string)
    decreases |hay|
  {
    needle <= hay || (|hay| > 0 && Contains(hay[1..], needle))
  }

  /** The needle occurs in the haystack at offset k. */
  predicate OccursAt(hay: string, needle: string, k: int) {
    0 <= k && k + |needle| <= |hay| && hay[k..k + |needle|] == needle
  }

  /** `includes` holds exactly when the needle occurs at some offset. */
  lemma ContainsAt(hay: string, needle: string)
    ensures Contains(hay, needle) <==> exists k :: OccursAt(hay, needle, k)
  {
    if Contains(hay, needle) {
      ContainsHasOffset(hay, needle);
    }
    if exists k :: OccursAt(hay, needle, k) {
      var k :| OccursAt(hay, needle, k);
      OffsetIsContained(hay, needle, k);
    }
  }

  lemma {:induction false} ContainsHasOffset(hay: string, needle: string)
    requires Contains(hay, needle)
    ensures exists k :: OccursAt(hay, needle, k)
    decreases |hay|
  {
    if needle <= hay {
      assert OccursAt(hay, needle, 0);
    } else {
      ContainsHasOffset(hay[1..], needle);
      var k :| OccursAt(hay[1..], needle, k);
      assert hay[1..][k..k + |needle|] == hay[k + 1..k + 1 + |needle|];
      assert OccursAt(hay, needle, k + 1);
    }
  }

  lemma {:induction false} OffsetIsContained(hay: string, needle: string, k: int)
    requires OccursAt(hay, needle, k)
    ensures Contains(hay, needle)
    decreases k
  {
    if k == 0 {
      assert hay[..|needle|] == needle;
    } else {
      assert hay[1..][k - 1..k - 1 + |needle|] == hay[k..k + |needle|];
      OffsetIsContained(hay[1..], needle, k - 1);
    }
  }
}
