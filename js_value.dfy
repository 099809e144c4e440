/** Decoded JSON values as JavaScript sees them: truthiness, property access
    with optional chaining, and the white-space set of `String.prototype.trim`
    (which is also the set matched by `\s` in a regular expression). */
module JsValue {
  import opened Wrappers

  datatype Json =
    | JNull
    | JBool(b: bool)
    | JNum(n: int)
    | JStr(s: string)
    | JArr(items: seq<Json>)
    | JObj(fields: map<string, Json>)

  /** JavaScript truthiness: null, false, 0 and "" are falsy. */
  predicate Truthy(j: Json) {
    match j
    case JNull => false
    case JBool(b) => b
    case JNum(n) => n != 0
    case JStr(s) => s != ""
    case _ => true
  }

  /** Truthiness of a value that may be `undefined` (None). */
  predicate TruthyOpt(o: Option<Json>) {
    o.Some? && Truthy(o.value)
  }

  /** `j?.key`: only objects carry named properties; anything else gives undefined. */
  function Field(j: Json, key: string): (r: Option<Json>)
    ensures r.Some? <==> j.JObj? && key in j.fields
  {
    if j.JObj? && key in j.fields then Some(j.fields[key]) else None
  }

  /** `o?.key` on a value that may itself be undefined. */
  function FieldOpt(o: Option<Json>, key: string): (r: Option<Json>)
    ensures r.Some? ==> o.Some? && o.value.JObj?
  {
    if o.Some? then Field(o.value, key) else None
  }

  /** `o ?? null`: undefined read as null. */
  function OrNull(o: Option<Json>): Json {
    o.GetOr(JNull)
  }

  /** The ECMAScript LineTerminator code points. */
  predicate IsLineTerminator(c: char) {
    c == '\n' || c == '\r' || c == '\U{2028}' || c == '\U{2029}'
  }

  /** ECMAScript WhiteSpace and LineTerminator code points. */
  predicate IsSpace(c: char) {
    || IsLineTerminator(c)
    || c == '\t' || c == '\U{000B}' || c == '\U{000C}' || c == ' '
    || c == '\U{00A0}' || c == '\U{FEFF}' || c == '\U{1680}'
    || ('\U{2000}' <= c <= '\U{200A}')
    || c == '\U{202F}' || c == '\U{205F}' || c == '\U{3000}'
  }

  predicate IsDigit(c: char) {
    '0' <= c <= '9'
  }

  /** Length of the run of white space that starts `s`. */
  function LeadingSpaces(s: string): (n: nat)
    ensures n <= |s|
    ensures forall i :: 0 <= i < n ==> IsSpace(s[i])
    ensures n == |s| || !IsSpace(s[n])
  {
    if s != [] && IsSpace(s[0]) then 1 + LeadingSpaces(s[1..]) else 0
  }

  /** Where the run of white space that ends `s` begins. */
  function TrailingSpacesStart(s: string): (n: nat)
    ensures n <= |s|
    ensures forall i :: n <= i < |s| ==> IsSpace(s[i])
    ensures n == 0 || !IsSpace(s[n - 1])
  {
    if s != [] && IsSpace(s[|s| - 1]) then TrailingSpacesStart(s[..|s| - 1]) else |s|
  }

  /** A run of white space followed by a character that is not white space
      is exactly the leading run. */
  lemma {:induction false} LeadingSpacesOf(gap: string, rest: string)
    requires forall i :: 0 <= i < |gap| ==> IsSpace(gap[i])
    requires rest == [] || !IsSpace(rest[0])
    ensures LeadingSpaces(gap + rest) == |gap|
    decreases |gap|
  {
    if gap != [] {
      LeadingSpacesOf(gap[1..], rest);
      assert (gap + rest)[1..] == gap[1..] + rest;
    } else {
      assert gap + rest == rest;
    }
  }

  /** Leading white space removed. */
  function TrimStart(s: string): string {
    s[LeadingSpaces(s)..]
  }

  /** Trailing white space removed. */
  function TrimEnd(s: string): string {
    s[..TrailingSpacesStart(s)]
  }

  /** `s.trim()`. */
  function Trim(s: string): (r: string)
    ensures r == [] || (!IsSpace(r[0]) && !IsSpace(r[|r| - 1]))
    ensures r == [] <==> forall i :: 0 <= i < |s| ==> IsSpace(s[i])
    ensures forall c :: c in r ==> c in s
  {
    TrimEnd(TrimStart(s))
  }

  /** A string that is empty or only white space. */
  predicate Blank(s: string) {
    Trim(s) == []
  }

  /** Trimming is idempotent. */
  lemma {:induction false} TrimIdempotent(s: string)
    ensures Trim(Trim(s)) == Trim(s)
  {
    var r := Trim(s);
    if r != [] {
      assert TrimStart(r) == r;
      assert TrimEnd(r) == r;
    }
  }

  /** `Math.round(part / whole * 100)` (and `toFixed(0)`) on non-negative
      operands, computed exactly: the nearest whole percent, halves rounded
      up, and 0 when `whole` is 0. */
  function RoundPercent(part: nat, whole: nat): (r: nat)
    ensures whole == 0 ==> r == 0
    ensures whole > 0 ==> -(whole as int) <= 200 * part - 2 * whole * r < whole
    ensures part <= whole ==> r <= 100
  {
    if whole == 0 then 0
    else
      var r := (200 * part + whole) / (2 * whole);
      RoundPercentBounds(part, whole, r);
      r
  }

  lemma {:induction false} RoundPercentBounds(part: nat, whole: nat, r: int)
    requires whole > 0 && r == (200 * part + whole) / (2 * whole)
    ensures -(whole as int) <= 200 * part - 2 * whole * r < whole
    ensures part <= whole ==> r <= 100
  {
    var n := 200 * part + whole;
    var d := 2 * whole;
    var m := n % d;
    assert n == d * r + m && 0 <= m < d;
    assert d * r == 2 * whole * r;
    if part <= whole {
      assert d * r < d * 101;
      MulCancelLess(d, r, 101);
    }
  }

  lemma {:induction false} MulCancelLess(d: int, a: int, b: int)
    requires d > 0 && d * a < d * b
    ensures a < b
  {
    assert d * a - d * b == d * (a - b);
  }
}
