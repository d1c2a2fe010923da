/** The part of PHP's value model the settings registry relies on: the values a
    setting can hold, the `settype` conversions applied before a value is stored,
    and the key normalisation `array_key_exists` performs when the automatic
    validator looks a value up among a setting's field options. */
module PhpValues {
  import opened Wrappers

  /** A PHP value as a setting holds it. Floats, objects and resources are not
      part of the model; an array keeps its elements in iteration order. */
  datatype Value =
    | VNull
    | VBool(b: bool)
    | VInt(i: int)
    | VStr(s: string)
    | VArray(elems: seq<Value>)

  /** A PHP array key after normalisation: a string that spells an integer in
      canonical decimal form is stored as that integer. */
  datatype ArrayKey = IntKey(n: int) | StrKey(s: string)

  // ---------------------------------------------------------------------------
  // Decimal integers
  // ---------------------------------------------------------------------------

  predicate IsDigit(c: char) { '0' <= c <= '9' }

  predicate AllDigits(s: string) { forall i :: 0 <= i < |s| ==> IsDigit(s[i]) }

  function DigitValue(c: char): nat
    requires IsDigit(c)
  {
    c as int - '0' as int
  }

  function DigitChar(d: nat): (c: char)
    requires d < 10
    ensures IsDigit(c) && DigitValue(c) == d
  {
    (d + '0' as int) as char
  }

  /** The decimal digits of n, most significant first, without leading zeros. */
  function NatToDecimal(n: nat): (s: string)
    ensures |s| > 0 && AllDigits(s)
    ensures |s| > 1 ==> s[0] != '0'
    decreases n
  {
    if n < 10 then [DigitChar(n)] else NatToDecimal(n / 10) + [DigitChar(n % 10)]
  }

  /** The number a string of digits spells. */
  function DigitsValue(s: string): nat
    requires AllDigits(s)
  {
    if s == [] then 0 else DigitsValue(s[..|s| - 1]) * 10 + DigitValue(s[|s| - 1])
  }

  /** Length of the longest run of digits at the start of s. */
  function DigitPrefixLength(s: string): (k: nat)
    ensures k <= |s|
    ensures forall i :: 0 <= i < k ==> IsDigit(s[i])
    ensures k < |s| ==> !IsDigit(s[k])
  {
    if s == [] || !IsDigit(s[0]) then 0 else 1 + DigitPrefixLength(s[1..])
  }

  /** PHP's conversion of an integer to a string. */
  function IntToString(i: int): string
  {
    if i < 0 then "-" + NatToDecimal(-i) else NatToDecimal(i)
  }

  /** PHP's `(int)` conversion of a string: an optional sign followed by the
      longest run of digits; 0 when there are no digits. */
  function StringToInt(s: string): int
  {
    if |s| > 0 && (s[0] == '-' || s[0] == '+') then
      var t := s[1..];
      var d: int := DigitsValue(t[..DigitPrefixLength(t)]);
      if s[0] == '-' then -d else d
    else
      DigitsValue(s[..DigitPrefixLength(s)])
  }

  lemma {:induction false} NatToDecimalValue(n: nat)
    ensures DigitsValue(NatToDecimal(n)) == n
    decreases n
  {
    if n >= 10 {
      NatToDecimalValue(n / 10);
      var s := NatToDecimal(n);
      assert s[..|s| - 1] == NatToDecimal(n / 10);
    }
  }

  lemma DigitPrefixOfDigits(s: string)
    requires AllDigits(s)
    ensures DigitPrefixLength(s) == |s|
  {
  }

  /** Reading back the string PHP writes for an integer gives the integer. */
  lemma IntStringRoundTrip(i: int)
    ensures StringToInt(IntToString(i)) == i
  {
    var n: nat := if i < 0 then -i else i;
    var d := NatToDecimal(n);
    NatToDecimalValue(n);
    DigitPrefixOfDigits(d);
    assert d[..|d|] == d;
    if i < 0 {
      var s := "-" + d;
      assert s[1..] == d;
    } else {
      assert !(d[0] == '-' || d[0] == '+');
    }
  }

  /** A string PHP treats as an integer key: the canonical decimal spelling of
      an integer (no sign other than '-', no leading zeros, not "-0"). */
  predicate IsCanonicalInt(s: string)
  {
    IntToString(StringToInt(s)) == s
  }

  // ---------------------------------------------------------------------------
  // array_key_exists
  // ---------------------------------------------------------------------------

  /** A key a PHP array can actually hold: a string key never spells an
      integer canonically, because PHP stores such a key as that integer. */
  predicate IsNormalKey(k: ArrayKey)
  {
    k.StrKey? ==> !IsCanonicalInt(k.s)
  }

  /** The options a setting offers, allowed value (as an array key) to label. */
  type FieldOptions = m: map<ArrayKey, string> | forall k :: k in m ==> IsNormalKey(k)

  /** The key `array_key_exists` looks up for v. Integers are keys as they are,
      integer-like strings become integers, other strings stay strings and null
      is looked up as the empty string; a boolean or an array draws a warning
      and the lookup fails, which is `None` here. */
  function AsArrayKey(v: Value): (r: Option<ArrayKey>)
    ensures r.None? <==> v.VBool? || v.VArray?
    ensures r.Some? ==> IsNormalKey(r.value)
    ensures v.VInt? ==> r == Some(IntKey(v.i))
    ensures v.VStr? && !IsCanonicalInt(v.s) ==> r == Some(StrKey(v.s))
  {
    match v
    case VNull =>
      assert StringToInt("") == 0;
      Some(StrKey(""))
    case VInt(i) => Some(IntKey(i))
    case VStr(s) => Some(if IsCanonicalInt(s) then IntKey(StringToInt(s)) else StrKey(s))
    case VBool(_) => None
    case VArray(_) => None
  }

  /** `array_key_exists(v, m)`: a boolean or an array is never found, and an
      integer is found exactly under its integer key. */
  function KeyExists(v: Value, m: map<ArrayKey, string>): (found: bool)
    ensures found ==> !v.VBool? && !v.VArray?
    ensures v.VInt? ==> (found <==> IntKey(v.i) in m)
  {
    AsArrayKey(v).Some? && AsArrayKey(v).value in m
  }

  /** A canonical integer string can never be a key of the options, so a
      string option key is found only by that same string. */
  lemma StringKeysAreFoundByTheirString(m: FieldOptions, k: string)
    requires StrKey(k) in m
    ensures KeyExists(VStr(k), m)
  {
    assert IsNormalKey(StrKey(k));
  }

  /** An integer and the string PHP writes for it find the same array entry. */
  lemma IntAndItsStringAreOneKey(i: int, m: map<ArrayKey, string>)
    ensures AsArrayKey(VStr(IntToString(i))) == AsArrayKey(VInt(i))
    ensures KeyExists(VStr(IntToString(i)), m) <==> KeyExists(VInt(i), m)
  {
    IntStringRoundTrip(i);
  }

  // ---------------------------------------------------------------------------
  // settype
  // ---------------------------------------------------------------------------

  /** PHP's boolean conversion: null, false, 0, "", "0" and the empty array are
      false, everything else true. */
  predicate Truthy(v: Value)
  {
    match v
    case VNull => false
    case VBool(b) => b
    case VInt(i) => i != 0
    case VStr(s) => s != "" && s != "0"
    case VArray(e) => |e| > 0
  }

  /** PHP's `(int)` conversion. */
  function ToInt(v: Value): int
  {
    match v
    case VNull => 0
    case VBool(b) => if b then 1 else 0
    case VInt(i) => i
    case VStr(s) => StringToInt(s)
    case VArray(e) => if |e| == 0 then 0 else 1
  }

  /** PHP's `(string)` conversion; an array becomes "Array". */
  function ToStr(v: Value): string
  {
    match v
    case VNull => ""
    case VBool(b) => if b then "1" else ""
    case VInt(i) => IntToString(i)
    case VStr(s) => s
    case VArray(_) => "Array"
  }

  /** PHP's `(array)` conversion: null becomes the empty array, a scalar a
      one-element array, an array stays as it is. */
  function ToArray(v: Value): Value
  {
    match v
    case VNull => VArray([])
    case VArray(_) => v
    case _ => VArray([v])
  }

  function LowerChar(c: char): char
  {
    if 'A' <= c <= 'Z' then (c as int + 32) as char else c
  }

  /** ASCII lower case, as PHP compares type names. */
  function LowerAscii(s: string): (r: string)
    ensures |r| == |s|
  {
    seq(|s|, i requires 0 <= i < |s| => LowerChar(s[i]))
  }

  lemma {:induction false} LowerAsciiIdempotent(s: string)
    ensures LowerAscii(LowerAscii(s)) == LowerAscii(s)
  {
    var l := LowerAscii(s);
    assert forall i :: 0 <= i < |l| ==> LowerAscii(l)[i] == l[i];
  }

  lemma {:induction false} LowerAsciiOfLowerCase(s: string)
    requires forall i :: 0 <= i < |s| ==> !('A' <= s[i] <= 'Z')
    ensures LowerAscii(s) == s
  {
    assert forall i :: 0 <= i < |s| ==> LowerAscii(s)[i] == s[i];
  }

  /** The type name settype dispatches on: PHP ignores its case. */
  function CastName(t: Option<string>): string
  {
    if t.None? then "" else LowerAscii(t.value)
  }

  /** `settype($value, $type)`. The result has the type asked for; a type name
      settype does not convert to here (a null type, a name PHP does not know,
      and "object", "float" and "double", which the value model leaves out)
      leaves the value as it is. */
  function SetType(t: Option<string>, v: Value): (r: Value)
    ensures CastName(t) in {"integer", "int"} ==> r.VInt?
    ensures CastName(t) in {"boolean", "bool"} ==> r.VBool?
    ensures CastName(t) == "string" ==> r.VStr?
    ensures CastName(t) == "array" ==> r.VArray?
    ensures CastName(t) == "null" ==> r == VNull
    ensures CastName(t) !in {"integer", "int", "boolean", "bool", "string", "array", "null"} ==> r == v
  {
    var name := CastName(t);
    if name == "integer" || name == "int" then VInt(ToInt(v))
    else if name == "boolean" || name == "bool" then VBool(Truthy(v))
    else if name == "string" then VStr(ToStr(v))
    else if name == "array" then ToArray(v)
    else if name == "null" then VNull
    else v
  }

  /** settype does not care how the type name is capitalised. */
  lemma SetTypeIgnoresCase(t: string, v: Value)
    ensures SetType(Some(t), v) == SetType(Some(LowerAscii(t)), v)
  {
    LowerAsciiIdempotent(t);
  }

  /** The lower-case names of the casts the registry's types ask for. */
  lemma CastNamesOfTypes()
    ensures CastName(Some("integer")) == "integer"
    ensures CastName(Some("boolean")) == "boolean"
    ensures CastName(Some("string")) == "string"
    ensures CastName(Some("array")) == "array"
  {
    LowerAsciiOfLowerCase("integer");
    LowerAsciiOfLowerCase("boolean");
    LowerAsciiOfLowerCase("string");
    LowerAsciiOfLowerCase("array");
  }

  /** Casting a value a second time to the same type changes nothing. */
  lemma SetTypeIdempotent(t: Option<string>, v: Value)
    ensures SetType(t, SetType(t, v)) == SetType(t, v)
  {
  }

  /** An integer converted to a string and back to an integer is unchanged. */
  lemma IntThroughStringCast(i: int)
    ensures SetType(Some("integer"), SetType(Some("string"), VInt(i))) == VInt(i)
  {
    CastNamesOfTypes();
    IntStringRoundTrip(i);
  }

  /** The two conversions a settings form relies on most: "0" is false and
      "42" is the integer 42. */
  lemma FormStringCasts()
    ensures SetType(Some("boolean"), VStr("0")) == VBool(false)
    ensures SetType(Some("boolean"), VStr("1")) == VBool(true)
    ensures SetType(Some("integer"), VStr("42")) == VInt(42)
    ensures SetType(Some("integer"), VStr("-7")) == VInt(-7)
  {
    CastNamesOfTypes();
    var s := "42";
    assert DigitPrefixLength(s[2..]) == 0;
    assert DigitPrefixLength(s) == 2;
    assert s[..2] == s;
    assert s[..1] == "4";
    assert DigitsValue("4") == 4;
    assert DigitsValue(s) == 42;
    var t := "-7";
    assert t[1..] == "7";
    assert DigitPrefixLength("7") == 1;
  }
}
