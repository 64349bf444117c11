/**
 * The JSON values a parsed request body can carry, and the three pieces of
 * JavaScript semantics the handlers apply to them: `typeof`, truthiness
 * (`!x`, `x || d`) and `String.prototype.trim`.
 */
module Json {
  import opened Wrappers

  /** A value produced by parsing JSON. Numbers are finite, so NaN never occurs. */
  datatype JsonValue =
    | JNull
    | JBool(b: bool)
    | JNumber(n: real)
    | JString(s: string)
    | JArray(items: seq<JsonValue>)
    | JObject(entries: seq<(string, JsonValue)>)

  /** The answers of JavaScript `typeof` that a parsed JSON field can produce. */
  datatype TypeTag = Undefined | Object | Boolean | Number | String

  /** JavaScript `typeof` of a body field; an absent field is `undefined`, and `null` is an `object`. */
  function TypeOf(v: Option<JsonValue>): (t: TypeTag)
    ensures t == Undefined <==> v.None?
    ensures t == String <==> v.Some? && v.value.JString?
    ensures t == Number <==> v.Some? && v.value.JNumber?
    ensures t == Boolean <==> v.Some? && v.value.JBool?
  {
    match v
    case None => Undefined
    case Some(JNull) => Object
    case Some(JBool(_)) => Boolean
    case Some(JNumber(_)) => Number
    case Some(JString(_)) => String
    case Some(JArray(_)) => Object
    case Some(JObject(_)) => Object
  }

  /**
   * JavaScript truthiness: `undefined`, `null`, `false`, `0` and `""` are
   * falsy; every other value, including an empty array or object, is truthy.
   */
  predicate Truthy(v: Option<JsonValue>)
  {
    match v
    case None => false
    case Some(JNull) => false
    case Some(JBool(b)) => b
    case Some(JNumber(n)) => n != 0.0
    case Some(JString(s)) => s != ""
    case Some(JArray(_)) => true
    case Some(JObject(_)) => true
  }

  /**
   * The characters `trim` removes: the WhiteSpace and LineTerminator code
   * points of ECMA-262 (sections 12.2 and 12.3 of the ECMAScript language
   * specification), i.e. TAB, VT, FF, ZWNBSP, the Zs space separators, LF,
   * CR, LS and PS.
   */
  predicate IsWhitespace(c: char)
  {
    var n := c as int;
    n == 0x09 || n == 0x0A || n == 0x0B || n == 0x0C || n == 0x0D || n == 0x20 ||
    n == 0xA0 || n == 0x1680 || (0x2000 <= n <= 0x200A) || n == 0x2028 || n == 0x2029 ||
    n == 0x202F || n == 0x205F || n == 0x3000 || n == 0xFEFF
  }

  /** Drops the leading whitespace of `s`: the result is the suffix that starts at the first non-whitespace character. */
  function TrimStart(s: string): (r: string)
    ensures |r| <= |s| && r == s[|s| - |r|..]
    ensures forall i :: 0 <= i < |s| - |r| ==> IsWhitespace(s[i])
    ensures r == [] || !IsWhitespace(r[0])
  {
    if s != [] && IsWhitespace(s[0]) then TrimStart(s[1..]) else s
  }

  /** Drops the trailing whitespace of `s`: the result is the prefix that ends at the last non-whitespace character. */
  function TrimEnd(s: string): (r: string)
    ensures |r| <= |s| && r == s[..|r|]
    ensures forall i :: |r| <= i < |s| ==> IsWhitespace(s[i])
    ensures r == [] || !IsWhitespace(r[|r| - 1])
  {
    if s != [] && IsWhitespace(s[|s| - 1]) then TrimEnd(s[..|s| - 1]) else s
  }

  /**
   * `s.trim()`: what is left of `s` once the leading and the trailing
   * whitespace are cut away. It is an infix of `s`, everything cut off on
   * either side is whitespace, and it starts and ends with a non-whitespace
   * character; TrimIsEmptyIff says when it is empty.
   */
  function Trim(s: string): (r: string)
    ensures |r| <= |TrimStart(s)| <= |s|
    ensures r == s[|s| - |TrimStart(s)|..|s| - |TrimStart(s)| + |r|]
    ensures forall i :: 0 <= i < |s| - |TrimStart(s)| ==> IsWhitespace(s[i])
    ensures forall i :: |s| - |TrimStart(s)| + |r| <= i < |s| ==> IsWhitespace(s[i])
    ensures r == [] || (!IsWhitespace(r[0]) && !IsWhitespace(r[|r| - 1]))
  {
    var t := TrimStart(s);
    var r := TrimEnd(t);
    TwoStepTrim(s, t, r);
    r
  }

  /**
   * Trimming `s` in two steps: `t` is `s` with its leading whitespace cut,
   * `r` is `t` with its trailing whitespace cut. Then `r` sits in `s` right
   * after the part the first step cut off, everything around it is
   * whitespace, and it starts and ends with a non-whitespace character.
   */
  lemma TwoStepTrim(s: string, t: string, r: string)
    requires |t| <= |s| && t == s[|s| - |t|..]
    requires forall i :: 0 <= i < |s| - |t| ==> IsWhitespace(s[i])
    requires t == [] || !IsWhitespace(t[0])
    requires |r| <= |t| && r == t[..|r|]
    requires forall i :: |r| <= i < |t| ==> IsWhitespace(t[i])
    requires r == [] || !IsWhitespace(r[|r| - 1])
    ensures |r| <= |t| <= |s|
    ensures r == s[|s| - |t|..|s| - |t| + |r|]
    ensures forall i :: 0 <= i < |s| - |t| ==> IsWhitespace(s[i])
    ensures forall i :: |s| - |t| + |r| <= i < |s| ==> IsWhitespace(s[i])
    ensures r == [] || (!IsWhitespace(r[0]) && !IsWhitespace(r[|r| - 1]))
  {
    var cut := |s| - |t|;
    forall i | cut + |r| <= i < |s| ensures IsWhitespace(s[i]) {
      assert s[i] == t[i - cut];
    }
  }

  /** `s` has a character that is not whitespace. */
  predicate HasVisibleChar(s: string)
  {
    exists i :: 0 <= i < |s| && !IsWhitespace(s[i])
  }

  /** `s.trim()` is the empty string exactly when every character of `s` is whitespace. */
  lemma TrimIsEmptyIff(s: string)
    ensures Trim(s) == [] <==> !HasVisibleChar(s)
  {
  }
}
