/** The PHP and WordPress primitives the plugin leans on when it reads a
    loosely typed payload: `empty`, truthiness, `isset`, the integer cast
    behind `absint`, the string conversion behind `sanitize_text_field`,
    `substr($s, 0, n)` and `rtrim($s, $c)`.  Each is stated here once, by
    what PHP does with the values the handlers can receive. */
module Php {

  /** A value decoded from a JSON body with `json_decode($body, true)` (or
      `get_json_params()`): JSON objects and arrays both become PHP arrays,
      of which only the element count matters to the plugin. */
  datatype Json = JNull | JBool(b: bool) | JInt(i: int) | JString(s: string) | JArray(size: nat)

  /** A decoded body; a body that is not a JSON object reads as no fields. */
  type Payload = map<string, Json>

  /** `$payload[$key]`: a missing key reads as null. */
  function Field(p: Payload, key: string): Json
  {
    if key in p then p[key] else JNull
  }

  /** `isset($v)`: present and not null. */
  predicate IsSet(v: Json)
  {
    v != JNull
  }

  /** `empty($v)`: null, false, 0, "", "0" and the empty array. Whatever is
      not set is empty, and an empty value prints as "" or "0". */
  predicate Empty(v: Json)
    ensures !IsSet(v) ==> Empty(v)
    ensures Empty(v) ==> TextOf(v) == "" || TextOf(v) == "0"
  {
    match v
    case JNull => true
    case JBool(b) => !b
    case JInt(i) => i == 0
    case JString(s) => s == "" || s == "0"
    case JArray(n) => n == 0
  }

  /** A string in a condition (`$s ? a : b`): false exactly when empty. */
  predicate Truthy(s: string)
  {
    !Empty(JString(s))
  }

  predicate IsDigit(c: char)
  {
    '0' <= c <= '9'
  }

  predicate AllDigits(s: string)
  {
    forall i :: 0 <= i < |s| ==> IsDigit(s[i])
  }

  /** The characters PHP skips before a number in a string. */
  predicate IsSpace(c: char)
  {
    c == ' ' || c == '\t' || c == '\n' || c == '\r' || c == '\U{000B}' || c == '\U{000C}'
  }

  function DigitChar(d: nat): (c: char)
    requires d < 10
    ensures IsDigit(c) && c as int - '0' as int == d
  {
    "0123456789"[d]
  }

  /** The decimal digits PHP prints for a natural number: no leading zero
      except for 0 itself. */
  function DecimalString(n: nat): (s: string)
    ensures |s| >= 1 && AllDigits(s)
    ensures |s| > 1 ==> s[0] != '0'
  {
    if n < 10 then [DigitChar(n)] else DecimalString(n / 10) + [DigitChar(n % 10)]
  }

  /** `(string)$i` for an integer. */
  function IntString(i: int): string
  {
    if i < 0 then "-" + DecimalString(-i) else DecimalString(i)
  }

  /** The value of a run of decimal digits. */
  function DigitsValue(d: string): nat
    requires AllDigits(d)
  {
    if d == [] then 0 else DigitsValue(d[..|d| - 1]) * 10 + (d[|d| - 1] as int - '0' as int)
  }

  /** `s` without its leading white space. */
  function TrimLeadingSpace(s: string): (t: string)
    ensures |t| <= |s| && t == s[|s| - |t|..]
    ensures forall i :: 0 <= i < |s| - |t| ==> IsSpace(s[i])
    ensures t != [] ==> !IsSpace(t[0])
  {
    if s != [] && IsSpace(s[0]) then TrimLeadingSpace(s[1..]) else s
  }

  /** The longest run of digits that `s` starts with. */
  function DigitPrefix(s: string): (d: string)
    ensures |d| <= |s| && d == s[..|d|] && AllDigits(d)
    ensures |d| < |s| ==> !IsDigit(s[|d|])
  {
    if s != [] && IsDigit(s[0]) then [s[0]] + DigitPrefix(s[1..]) else []
  }

  /** `(int)$s` for a string: leading white space, an optional sign, then
      the leading digits; a string without leading digits gives 0. A string
      of digits alone reads as its value, and one with no digit at all
      as 0. */
  function StringToInt(s: string): (i: int)
    ensures AllDigits(s) ==> i == DigitsValue(s)
    ensures (forall k :: 0 <= k < |s| ==> !IsDigit(s[k])) ==> i == 0
  {
    var t := TrimLeadingSpace(s);
    assert s != [] && IsDigit(s[0]) ==> t == s;
    DigitPrefixOfDigits(s);
    NoDigitsNoPrefix(t);
    NoDigitsNoPrefix(if t != [] then t[1..] else t);
    if t != [] && t[0] == '-' then 0 - DigitsValue(DigitPrefix(t[1..])) as int
    else if t != [] && t[0] == '+' then DigitsValue(DigitPrefix(t[1..]))
    else DigitsValue(DigitPrefix(t))
  }

  /** `(int)$v` for a decoded value: every empty value casts to 0, and so
      does a string without any digit. */
  function IntVal(v: Json): (i: int)
    ensures Empty(v) ==> i == 0
    ensures v.JString? && AllDigits(v.s) ==> i == DigitsValue(v.s)
  {
    match v
    case JNull => 0
    case JBool(b) => if b then 1 else 0
    case JInt(i) => i
    case JString(s) =>
      assert s == "0" ==> AllDigits(s) && s[..|s| - 1] == [] && DigitsValue(s) == 0;
      StringToInt(s)
    case JArray(n) => if n == 0 then 0 else 1
  }

  /** WordPress `absint`: the absolute value of the integer cast. */
  function AbsInt(v: Json): (n: nat)
    ensures n == IntVal(v) || n == -IntVal(v)
  {
    var i := IntVal(v);
    if i < 0 then -i else i
  }

  /** `sanitize_text_field($v)`: arrays give "", scalars their string form.
      The sanitising itself (tag stripping, white-space folding) is the
      identity here. */
  function TextOf(v: Json): (t: string)
    ensures v.JInt? ==> StringToInt(t) == v.i
    ensures !IsSet(v) || v.JArray? ==> t == ""
  {
    match v
    case JNull => ""
    case JBool(b) => if b then "1" else ""
    case JInt(i) => StringToIntOfIntString(i); IntString(i)
    case JString(s) => s
    case JArray(_) => ""
  }

  /** `isset($v) ? sanitize_text_field($v) : ''`, the plugin's reading of
      an optional field: the `isset` test never changes the result, because
      the string form of null is already "". */
  function OptionalText(v: Json): (t: string)
    ensures t == TextOf(v)
  {
    if IsSet(v) then TextOf(v) else ""
  }

  /** `substr($s, 0, $n)`: the first `n` characters, or all of a shorter string. */
  function Prefix(s: string, n: nat): (r: string)
    ensures |r| == if |s| < n then |s| else n
    ensures r == s[..|r|]
  {
    if |s| <= n then s else s[..n]
  }

  /** `rtrim($s, $c)` for a one-character mask: every trailing `c` removed. */
  function RTrim(s: string, c: char): (r: string)
    ensures |r| <= |s| && r == s[..|r|]
    ensures r == [] || r[|r| - 1] != c
    ensures forall i :: |r| <= i < |s| ==> s[i] == c
  {
    if s != [] && s[|s| - 1] == c then RTrim(s[..|s| - 1], c) else s
  }

  /** Reading back what PHP prints for a natural number gives the number. */
  lemma {:induction false} DigitsValueOfDecimalString(n: nat)
    ensures DigitsValue(DecimalString(n)) == n
  {
    if n >= 10 {
      var s := DecimalString(n);
      assert s[..|s| - 1] == DecimalString(n / 10);
      DigitsValueOfDecimalString(n / 10);
    }
  }

  lemma DigitPrefixOfDigits(s: string)
    ensures AllDigits(s) ==> DigitPrefix(s) == s
  {
  }

  lemma NoDigitsNoPrefix(s: string)
    ensures (forall k :: 0 <= k < |s| ==> !IsDigit(s[k])) ==> DigitPrefix(s) == []
  {
  }

  /** `(int)(string)$i == $i`: the integer cast undoes the string form. */
  lemma StringToIntOfIntString(i: int)
    ensures StringToInt(IntString(i)) == i
  {
    var n: nat := if i < 0 then -i else i;
    var d := DecimalString(n);
    DigitPrefixOfDigits(d);
    DigitsValueOfDecimalString(n);
    var t := IntString(i);
    assert !IsSpace(t[0]);
    assert TrimLeadingSpace(t) == t;
    if i < 0 {
      assert t[0] == '-' && t[1..] == d;
      assert StringToInt(t) == 0 - DigitsValue(d) as int;
    } else {
      assert t == d && t[0] != '-' && t[0] != '+';
      assert DigitPrefix(d) == d;
      assert StringToInt(t) == DigitsValue(d);
    }
  }

  /** An order id sent as a JSON string finds the same order as the same id
      sent as a JSON number. */
  lemma AbsIntOfNumericString(i: int)
    ensures AbsInt(JString(TextOf(JInt(i)))) == AbsInt(JInt(i))
  {
    StringToIntOfIntString(i);
  }

  /** A non-empty string without leading digits casts to 0 ("abc" → 0). */
  lemma AbsIntOfNonNumericString(s: string)
    requires s != [] && !IsDigit(s[0]) && !IsSpace(s[0]) && s[0] != '-' && s[0] != '+'
    ensures AbsInt(JString(s)) == 0
  {
    assert TrimLeadingSpace(s) == s;
    assert DigitPrefix(s) == [];
  }

  /** Any number of trailing slashes gives the same trimmed string. */
  lemma {:induction false} RTrimIgnoresTrailingRun(s: string, c: char, k: nat)
    ensures RTrim(s + seq(k, _ => c), c) == RTrim(s, c)
  {
    if k > 0 {
      var t := s + seq(k, _ => c);
      assert t[..|t| - 1] == s + seq(k - 1, _ => c);
      RTrimIgnoresTrailingRun(s, c, k - 1);
    } else {
      assert s + seq(k, _ => c) == s;
    }
  }
}
