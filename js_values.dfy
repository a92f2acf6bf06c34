/** Decoded JSON values and the JavaScript coercions the source applies to them:
    truthiness (`if (x)`, `x || d`), property access on a decoded object, and
    `String(x)` where a decoded value is used as text.  `JSON.parse` itself is
    never modelled: every operation that decodes takes a `Decoder` parameter. */
module JsValues {
  import opened Wrappers
  import opened Strings

  /** A decoded JSON value.  Numbers are integers in this model. */
  datatype Json =
    | JNull
    | JBool(b: bool)
    | JNum(n: int)
    | JStr(s: string)
    | JArr(items: seq<Json>)
    | JObj(fields: map<string, Json>)

  /** `JSON.parse`: a decoded value, or the message of the thrown `SyntaxError`. */
  type Decoder = string -> Result<Json, string>

  /** JavaScript truthiness of a decoded value. */
  predicate Truthy(v: Json) {
    match v
    case JNull => false
    case JBool(b) => b
    case JNum(n) => n != 0
    case JStr(s) => s != ""
    case JArr(_) => true
    case JObj(_) => true
  }

  /** Truthiness of a possibly `undefined` value. */
  predicate TruthyOpt(o: Option<Json>) {
    o.Some? && Truthy(o.value)
  }

  /** `v[key]`: the property of a decoded object; `undefined` for a missing key
      and for values that are not objects. */
  function Field(v: Json, key: string): (r: Option<Json>)
    ensures r.Some? <==> v.JObj? && key in v.fields
    ensures r.Some? ==> r.value == v.fields[key]
  {
    if v.JObj? && key in v.fields then Some(v.fields[key]) else None
  }

  /** `String(v)` */
  function ToText(v: Json): (r: string)
    ensures v.JStr? ==> r == v.s
    ensures v == JNull ==> r == "null"
    decreases v, 0
  {
    match v
    case JNull => "null"
    case JBool(b) => if b then "true" else "false"
    case JNum(n) => IntToString(n)
    case JStr(s) => s
    case JArr(items) => Join(seq(|items|, i requires 0 <= i < |items| => ElementText(items[i])), ",")
    case JObj(_) => "[object Object]"
  }

  /** An array element inside `String(array)`: `null` becomes the empty text. */
  function ElementText(v: Json): (r: string)
    ensures v == JNull ==> r == ""
    decreases v, 1
  {
    if v.JNull? then "" else ToText(v)
  }

  /** `v || fallback` where the result is used as text. */
  function TextOr(o: Option<Json>, fallback: string): (r: string)
    ensures !TruthyOpt(o) ==> r == fallback
    ensures o.Some? && o.value.JStr? && o.value.s != "" ==> r == o.value.s
  {
    if TruthyOpt(o) then ToText(o.value) else fallback
  }

  /** A decoded array used as a list of texts; anything else yields `[]`. */
  function TextsOf(o: Option<Json>): (r: seq<string>)
    ensures o.None? || !o.value.JArr? ==> r == []
    ensures o.Some? && o.value.JArr? ==> |r| == |o.value.items|
  {
    if o.Some? && o.value.JArr? then
      seq(|o.value.items|, i requires 0 <= i < |o.value.items| => ToText(o.value.items[i]))
    else []
  }

  // ---------------------------------------------------------------------------
  // `x > 0` after JavaScript's conversion to a number

  /** A character allowed after `0x`, `0o` or `0b` (`kind` is the letter). */
  predicate InRadix(kind: char, c: char) {
    if kind == 'x' || kind == 'X' then IsDigit(c) || 'a' <= c <= 'f' || 'A' <= c <= 'F'
    else if kind == 'o' || kind == 'O' then '0' <= c <= '7'
    else c == '0' || c == '1'
  }

  /** The digits of a `0x`/`0o`/`0b` literal denote a positive number. */
  predicate RadixPositive(kind: char, digits: string) {
    && |digits| > 0
    && (forall i :: 0 <= i < |digits| ==> InRadix(kind, digits[i]))
    && (exists i :: 0 <= i < |digits| && digits[i] != '0')
  }

  /** An exponent after `e`: an optional sign and at least one digit. */
  predicate ExponentText(x: string) {
    var d := if |x| > 0 && (x[0] == '+' || x[0] == '-') then x[1..] else x;
    |d| > 0 && forall i :: 0 <= i < |d| ==> IsDigit(d[i])
  }

  /** Digits with at most one `.`, at least one of them not zero. */
  predicate MantissaPositive(m: string) {
    && (forall i :: 0 <= i < |m| ==> IsDigit(m[i]) || m[i] == '.')
    && Count(m, '.') <= 1
    && (exists i :: 0 <= i < |m| && '1' <= m[i] <= '9')
  }

  /** An unsigned decimal literal (or `Infinity`) with a positive value. */
  predicate UnsignedPositive(u: string) {
    || u == "Infinity"
    || MantissaPositive(u)
    || exists e :: 0 <= e < |u| && (u[e] == 'e' || u[e] == 'E') && ExponentText(u[e + 1..]) && MantissaPositive(u[..e])
  }

  /** `Number(s) > 0`: the trimmed text is a numeric literal with a positive
      value.  The empty text is 0, a `-` sign gives a value that is not
      positive, and anything else that is not a literal is NaN. */
  predicate NumericTextPositive(s: string) {
    var t := Trim(s);
    if |t| >= 2 && t[0] == '0' && t[1] in "xXoObB" then RadixPositive(t[1], t[2..])
    else if |t| >= 1 && t[0] == '+' then UnsignedPositive(t[1..])
    else if |t| >= 1 && t[0] == '-' then false
    else UnsignedPositive(t)
  }

  /** `v > 0` for a possibly `undefined` decoded value: `undefined` and objects
      convert to NaN, `null` to 0, booleans to 0 or 1, and arrays through
      their text. */
  predicate NumberPositive(o: Option<Json>) {
    o.Some? &&
    match o.value
    case JNull => false
    case JBool(b) => b
    case JNum(n) => n > 0
    case JStr(s) => NumericTextPositive(s)
    case JArr(_) => NumericTextPositive(ToText(o.value))
    case JObj(_) => false
  }

  /** `v.length > 0` for a decoded value that is not null: the length of a
      text or an array, the converted `length` member of an object, and
      `undefined` (so false) for a number or a boolean. */
  predicate LengthPositive(v: Json)
    requires !v.JNull?
  {
    match v
    case JStr(s) => |s| > 0
    case JArr(items) => |items| > 0
    case JObj(_) => NumberPositive(Field(v, "length"))
    case _ => false
  }

  /** The text "5" converts to a positive number. */
  lemma FiveIsPositive()
    ensures NumericTextPositive("5")
  {
    TrimOfTrimmed("5");
    assert MantissaPositive("5") by {
      assert "5"[0] == '5';
    }
  }
}
