/** Values and string operations shared by every part of the model.

    The service keeps its job records as Python dictionaries from field names
    to loosely typed values; `Record` models such a dictionary and `Value` the
    values that occur in it. Strings are sequences of characters; case
    conversion and whitespace are the ASCII ones. */
module Common {

  datatype Option<+T> = None | Some(value: T)

  datatype Result<+T, +E> = Ok(value: T) | Err(error: E)

  /** An HTTP error answer: the status code and the `detail` text. */
  datatype HttpError = HttpError(code: int, detail: string)

  /** A Python value as it appears in a record, an options dict or an engine result. */
  datatype Value =
    | VNone
    | VBool(b: bool)
    | VInt(i: int)
      // a finite float, exactly `mantissa / 10^exponent` (every finite binary float has such a form)
    | VFloat(mantissa: int, exponent: nat)
    | VStr(s: string)
      // an ISO-8601 timestamp string that parses to the instant `t`
    | VTime(t: int)
    | VHeaders(headers: map<string, string>)
      // the legacy `video_info` dict
    | VInfo(title: Value, duration: Value, uploader: Value, originalUrl: string)
      // a list, such as the `entries` of a playlist
    | VList(items: seq<Value>)
      // any other object (tuple, callable, nested dict), seen only through a tag
    | VOther(tag: string)

  type Record = map<string, Value>

  /** Python truthiness of a value. Opaque objects are taken to be truthy. */
  predicate Truthy(v: Value) {
    match v
    case VNone => false
    case VBool(b) => b
    case VInt(i) => i != 0
    case VFloat(m, _) => m != 0
    case VStr(s) => s != ""
    case VTime(_) => true
    case VHeaders(h) => h != map[]
    case VInfo(_, _, _, _) => true
    case VList(items) => items != []
    case VOther(_) => true
  }

  /** `d.get(key, default)` */
  function Get(d: Record, key: string, default: Value): (v: Value)
    ensures key in d ==> v == d[key]
    ensures key !in d ==> v == default
  {
    if key in d then d[key] else default
  }

  /** `m` without the keys listed in `names`: what is left after deleting
      them one by one. */
  function Without<V>(m: map<string, V>, names: seq<string>): (r: map<string, V>)
    ensures forall k :: k in r <==> k in m && k !in names
    ensures forall k :: k in r ==> r[k] == m[k]
  {
    if names == [] then m else Without(m, names[..|names| - 1]) - {names[|names| - 1]}
  }

  /** Deleting one more key. */
  lemma WithoutSnoc<V>(m: map<string, V>, names: seq<string>, x: string)
    ensures Without(m, names + [x]) == Without(m, names) - {x}
  {
    assert (names + [x])[..|names|] == names;
  }

  /** `d.get(key)` on a map of records: None for an unknown key. */
  function Lookup<V>(m: map<string, V>, key: string): (r: Option<V>)
    ensures r.Some? <==> key in m
    ensures r.Some? ==> r.value == m[key]
  {
    if key in m then Some(m[key]) else None
  }

  // ---------------------------------------------------------------- strings

  function LowerChar(c: char): (d: char)
    ensures 'A' <= c <= 'Z' ==> d as int == c as int + 32
    ensures !('A' <= c <= 'Z') ==> d == c
  {
    if 'A' <= c <= 'Z' then (c as int + 32) as char else c
  }

  /** `s.lower()` on ASCII letters. */
  function Lower(s: string): (r: string)
    ensures |r| == |s|
    ensures forall i :: 0 <= i < |s| ==> r[i] == LowerChar(s[i])
  {
    seq(|s|, i requires 0 <= i < |s| => LowerChar(s[i]))
  }

  /** A string without upper-case letters is its own lower-case form. */
  lemma LowerOfLowercase(s: string)
    requires forall i :: 0 <= i < |s| ==> !('A' <= s[i] <= 'Z')
    ensures Lower(s) == s
  {
  }

  /** Python's `str.isspace` on the ASCII range. */
  predicate IsSpace(c: char) {
    c == ' ' || ('\t' <= c <= '\r') || (28 <= c as int <= 31)
  }

  predicate IsDigit(c: char) { '0' <= c <= '9' }

  predicate IsAlnum(c: char) { IsDigit(c) || 'a' <= c <= 'z' || 'A' <= c <= 'Z' }

  predicate StartsWith(s: string, p: string) {
    |p| <= |s| && s[..|p|] == p
  }

  predicate EndsWith(s: string, p: string) {
    |p| <= |s| && s[|s| - |p|..] == p
  }

  /** `p` occurs in `s` starting at index `i`. */
  predicate OccursAt(s: string, p: string, i: int) {
    0 <= i && i + |p| <= |s| && s[i..i + |p|] == p
  }

  /** Python's `p in s` for strings: an unanchored substring test. */
  predicate Contains(s: string, p: string) {
    exists i :: 0 <= i <= |s| && OccursAt(s, p, i)
  }

  lemma ContainsWitness(s: string, p: string, i: int)
    requires OccursAt(s, p, i)
    ensures Contains(s, p)
  {
  }

  /** Every character of a contained pattern occurs in the string. */
  lemma ContainedCharsOccur(s: string, p: string)
    ensures Contains(s, p) ==> forall k :: 0 <= k < |p| ==> p[k] in s
  {
    if Contains(s, p) {
      var i :| 0 <= i <= |s| && OccursAt(s, p, i);
      forall k | 0 <= k < |p| ensures p[k] in s {
        assert s[i..i + |p|][k] == s[i + k];
      }
    }
  }

  /** Substring containment is transitive. */
  lemma ContainsTransitive(s: string, q: string, p: string)
    requires Contains(s, q) && Contains(q, p)
    ensures Contains(s, p)
  {
    var i :| 0 <= i <= |s| && OccursAt(s, q, i);
    var j :| 0 <= j <= |q| && OccursAt(q, p, j);
    forall k | 0 <= k < |p| ensures s[i + j + k] == p[k] {
      assert p[k] == q[j..j + |p|][k] == q[j + k];
      assert q[j + k] == s[i..i + |q|][j + k];
    }
    assert s[i + j..i + j + |p|] == p;
    assert OccursAt(s, p, i + j);
  }

  /** Python's `s.strip()`: leading and trailing whitespace removed. */
  function Strip(s: string): (r: string)
    ensures |r| <= |s|
    ensures r != [] ==> !IsSpace(r[0]) && !IsSpace(r[|r| - 1])
  {
    StripRight(StripLeft(s))
  }

  function StripLeft(s: string): (r: string)
    ensures |r| <= |s| && r == s[|s| - |r|..]
    ensures r != [] ==> !IsSpace(r[0])
  {
    if s != [] && IsSpace(s[0]) then StripLeft(s[1..]) else s
  }

  /** What `strip()` keeps is a piece of the original text. */
  lemma StripIsContained(s: string)
    ensures Contains(s, Strip(s))
  {
    var t := StripLeft(s);
    var u := StripRight(t);
    assert OccursAt(s, t, |s| - |t|);
    assert OccursAt(t, u, 0);
    ContainsTransitive(s, t, u);
  }

  function StripRight(s: string): (r: string)
    ensures |r| <= |s| && r == s[..|r|]
    ensures r != [] ==> !IsSpace(r[|r| - 1])
  {
    if s != [] && IsSpace(s[|s| - 1]) then StripRight(s[..|s| - 1]) else s
  }

  /** Text with no whitespace at either end is its own `strip()`. */
  lemma StripOfUnspaced(s: string)
    requires s != [] && !IsSpace(s[0]) && !IsSpace(s[|s| - 1])
    ensures Strip(s) == s
  {
    assert StripLeft(s) == s;
    assert StripRight(s) == s;
  }

  /** `s.replace(c, "")` for a single character `c`. */
  function RemoveChar(s: string, c: char): (r: string)
    ensures c !in r
    ensures forall d :: d != c ==> (d in r <==> d in s)
  {
    if s == [] then []
    else if s[0] == c then RemoveChar(s[1..], c)
    else [s[0]] + RemoveChar(s[1..], c)
  }

  /** Index of the first occurrence of `c` in `s`, or `|s|` when there is none. */
  function IndexOf(s: string, c: char): (k: nat)
    ensures k <= |s|
    ensures k < |s| ==> s[k] == c
    ensures forall j :: 0 <= j < k ==> s[j] != c
  {
    if s == [] then 0 else if s[0] == c then 0 else 1 + IndexOf(s[1..], c)
  }

  /** `s.split(sep)`: the pieces between the separators, in order. */
  function Split(s: string, sep: char): (parts: seq<string>)
    ensures |parts| >= 1
    ensures forall i :: 0 <= i < |parts| ==> sep !in parts[i]
    decreases |s|
  {
    var k := IndexOf(s, sep);
    if k == |s| then [s] else [s[..k]] + Split(s[k + 1..], sep)
  }

  /** Decimal text of a natural number. */
  function NatToString(n: nat): (s: string)
    ensures |s| >= 1
    ensures forall i :: 0 <= i < |s| ==> IsDigit(s[i])
  {
    var d := ['0' + (n % 10) as char];
    if n < 10 then d else NatToString(n / 10) + d
  }

  /** Python's `str(i)` for an integer. */
  function IntText(i: int): string {
    if i < 0 then "-" + NatToString(-i) else NatToString(i)
  }

  /** Python's `str(v)` where the model knows the text; opaque objects print their tag. */
  function Str(v: Value): string {
    match v
    case VNone => "None"
    case VBool(b) => if b then "True" else "False"
    case VInt(i) => IntText(i)
    case VFloat(_, _) => "<float>"
    case VStr(s) => s
    case VTime(_) => "<timestamp>"
    case VHeaders(_) => "<dict>"
    case VInfo(_, _, _, _) => "<dict>"
    case VList(_) => "<list>"
    case VOther(tag) => tag
  }

  // ----------------------------------------------------------- int(value)

  predicate IsDecimal(d: string) {
    d != [] && forall i :: 0 <= i < |d| ==> IsDigit(d[i])
  }

  /** The value of a decimal digit. */
  function DigitValue(c: char): nat {
    if IsDigit(c) then c as int - '0' as int else 0
  }

  /** The number a run of decimal digits denotes. */
  function DecimalValue(d: string): nat {
    if d == [] then 0 else DecimalValue(d[..|d| - 1]) * 10 + DigitValue(d[|d| - 1])
  }

  /** `int(s)` for text: surrounding whitespace, an optional sign, then
      decimal digits; anything else raises ValueError. */
  function ParseInt(s: string): Option<int> {
    SignedDecimal(Strip(s))
  }

  /** An optional sign followed by decimal digits, with nothing around them. */
  function SignedDecimal(t: string): (r: Option<int>)
    ensures r.Some? <==> IsDecimal(t) || (|t| >= 2 && (t[0] == '+' || t[0] == '-') && IsDecimal(t[1..]))
    ensures r.Some? && r.value < 0 ==> t[0] == '-'
    ensures r.Some? && t[0] == '-' ==> r.value <= 0
  {
    if t != [] && (t[0] == '+' || t[0] == '-') then
      if IsDecimal(t[1..]) then
        var n: int := DecimalValue(t[1..]);
        Some(if t[0] == '-' then -n else n)
      else None
    else if IsDecimal(t) then Some(DecimalValue(t))
    else None
  }

  /** `int(v)`: None where Python raises ValueError or TypeError. An ISO
      timestamp never parses as an integer. */
  function PyInt(v: Value): (r: Option<int>)
    ensures v.VInt? ==> r == Some(v.i)
    ensures v.VFloat? ==> r.Some?
    ensures v.VFloat? && v.mantissa >= 0 ==>
              0 <= r.value * Pow10(v.exponent) <= v.mantissa < (r.value + 1) * Pow10(v.exponent)
    ensures v.VFloat? && v.mantissa < 0 ==>
              (r.value - 1) * Pow10(v.exponent) < v.mantissa <= r.value * Pow10(v.exponent) <= 0
  {
    match v
    case VInt(i) => Some(i)
    case VFloat(m, e) => TruncatesTowardZero(m, e); Some(Truncated(m, e))
    case VBool(b) => Some(if b then 1 else 0)
    case VStr(s) => ParseInt(s)
    case _ => None
  }

  /** Ten to the power `e`. */
  function Pow10(e: nat): (r: nat)
    ensures r >= 1
  {
    if e == 0 then 1 else 10 * Pow10(e - 1)
  }

  /** `int(x)` of the float `mantissa / 10^exponent`: the quotient truncated toward zero. */
  function Truncated(mantissa: int, exponent: nat): int {
    var p := Pow10(exponent);
    if mantissa >= 0 then mantissa / p else -((-mantissa) / p)
  }

  /** Truncation toward zero keeps the sign and drops less than one whole
      unit: the float lies in `[r, r + 1)` when it is not negative and in
      `(r - 1, r]` when it is. */
  lemma TruncatesTowardZero(mantissa: int, exponent: nat)
    ensures var r := Truncated(mantissa, exponent); var p := Pow10(exponent);
            && (mantissa >= 0 ==> 0 <= r * p <= mantissa < (r + 1) * p)
            && (mantissa < 0 ==> (r - 1) * p < mantissa <= r * p <= 0)
  {
    var p := Pow10(exponent);
    if mantissa >= 0 {
      QuotientBounds(mantissa, p);
    } else {
      var q := (-mantissa) / p;
      QuotientBounds(-mantissa, p);
      assert Truncated(mantissa, exponent) == -q;
      assert (-q) * p == -(q * p);
      assert (-q - 1) * p == -((q + 1) * p);
    }
  }

  /** The floor quotient of a natural number brackets it between two multiples. */
  lemma QuotientBounds(n: nat, p: nat)
    requires p >= 1
    ensures 0 <= (n / p) * p <= n < (n / p + 1) * p
  {
    var q := n / p;
    assert n == q * p + n % p;
    assert (q + 1) * p == q * p + p;
  }
}
