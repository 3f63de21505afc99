/**
 * The JavaScript values the guards handle, with the two language operations
 * the guards apply to them: the `typeof` operator (section 12.5.6 of
 * ECMA-262, ECMAScript 2015) and ToBoolean truthiness (section 7.1.2), plus
 * loose equality `v == "text"` against a string (section 7.2.12).
 */
module Js {
  import opened Wrappers

  /**
   * A JavaScript value. Numbers are abstracted to integers; a function is
   * identified by an id whose behaviour the target supplies; an object is
   * known by the `name` of its constructor.
   */
  datatype JsValue =
    | Undefined
    | Null
    | Boolean(b: bool)
    | Number(n: int)
    | String(s: string)
    | Symbol
    | Function(id: nat)
    | Object(ctorName: string)

  /** The names `typeof` can produce in ECMAScript 2015. */
  const TypeNames: set<string> :=
    {"undefined", "object", "boolean", "number", "string", "symbol", "function"}

  /** The `typeof` operator. `null` is reported as "object". */
  function TypeOf(v: JsValue): (r: string)
    ensures r in TypeNames
    ensures r == "object" <==> v.Null? || v.Object?
    ensures r == "string" <==> v.String?
    ensures r == "number" <==> v.Number?
    ensures r == "function" <==> v.Function?
  {
    match v
    case Undefined => "undefined"
    case Null => "object"
    case Boolean(_) => "boolean"
    case Number(_) => "number"
    case String(_) => "string"
    case Symbol => "symbol"
    case Function(_) => "function"
    case Object(_) => "object"
  }

  /** ToBoolean: `undefined`, `null`, `false`, `0` and `""` are falsy. */
  function Truthy(v: JsValue): (r: bool)
    ensures !r <==> v in {Undefined, Null, Boolean(false), Number(0), String("")}
  {
    match v
    case Undefined => false
    case Null => false
    case Boolean(b) => b
    case Number(n) => n != 0
    case String(s) => s != ""
    case Symbol => true
    case Function(_) => true
    case Object(_) => true
  }

  /** The white space StringToNumber trims (a subset of StrWhiteSpaceChar). */
  const WhiteSpace: set<char> := {' ', '\t', '\n', '\r'}

  function TrimStart(s: string): string {
    if |s| > 0 && s[0] in WhiteSpace then TrimStart(s[1..]) else s
  }

  function TrimEnd(s: string): string {
    if |s| > 0 && s[|s| - 1] in WhiteSpace then TrimEnd(s[..|s| - 1]) else s
  }

  predicate IsDigit(c: char) {
    '0' <= c <= '9'
  }

  predicate AllDigits(s: string) {
    forall i :: 0 <= i < |s| ==> IsDigit(s[i])
  }

  /** The value of a string of decimal digits. */
  function DigitsValue(s: string): nat
    requires AllDigits(s)
  {
    if s == [] then 0 else DigitsValue(s[..|s| - 1]) * 10 + (s[|s| - 1] - '0') as int
  }

  /**
   * ToNumber applied to a string (section 7.1.3.1 of ECMA-262, ECMAScript
   * 2015) for the integer forms: after trimming white space, the empty string
   * is 0 and an optionally signed run of decimal digits is its value. None is
   * NaN.
   */
  function StringToNumber(s: string): Option<int> {
    var t := TrimEnd(TrimStart(s));
    if t == "" then Some(0)
    else if t[0] == '-' && |t| > 1 && AllDigits(t[1..]) then Some(-(DigitsValue(t[1..]) as int))
    else if t[0] == '+' && |t| > 1 && AllDigits(t[1..]) then Some(DigitsValue(t[1..]))
    else if AllDigits(t) then Some(DigitsValue(t))
    else None
  }

  /** Functions and objects are of the language type Object. */
  predicate IsObject(v: JsValue) {
    v.Function? || v.Object?
  }

  /**
   * The Abstract Equality Comparison `x == y` (section 7.2.12 of ECMA-262,
   * ECMAScript 2015), case by case. None marks the cases this model cannot
   * decide: the identity of objects and symbols, and ToPrimitive on objects.
   */
  function LooseEquals(x: JsValue, y: JsValue): Option<bool>
    decreases (if x.Boolean? then 1 else 0) + (if y.Boolean? then 1 else 0)
  {
    match (x, y)
    case (Undefined, Undefined) => Some(true)
    case (Null, Null) => Some(true)
    case (Boolean(a), Boolean(b)) => Some(a == b)
    case (Number(a), Number(b)) => Some(a == b)
    case (String(a), String(b)) => Some(a == b)
    case (Symbol, Symbol) => None
    case (Null, Undefined) => Some(true)
    case (Undefined, Null) => Some(true)
    case (Number(a), String(b)) => Some(StringToNumber(b) == Some(a))
    case (String(a), Number(b)) => Some(StringToNumber(a) == Some(b))
    case (Boolean(a), _) => LooseEquals(Number(if a then 1 else 0), y)
    case (_, Boolean(b)) => LooseEquals(x, Number(if b then 1 else 0))
    case _ =>
      if IsObject(x) && IsObject(y) then None
      else if IsObject(x) && (y.String? || y.Number? || y.Symbol?) then None
      else if IsObject(y) && (x.String? || x.Number? || x.Symbol?) then None
      else Some(false)
  }

  /**
   * Loose equality `v == text` as the guards use it: only the string with the
   * same characters is equal (LooseEqualsStringAgrees relates it to
   * LooseEquals).
   */
  function LooseEqualsString(v: JsValue, text: string): (r: bool)
    ensures r ==> TypeOf(v) == "string"
    ensures r <==> v == String(text)
  {
    match v
    case String(s) => s == text
    case _ => false
  }

  /**
   * LooseEqualsString is the standard comparison for every value that is not
   * an object when `text` does not read as a number, and also for every
   * truthy value when `text` is empty (an anonymous class's name, which
   * reads as 0).
   */
  lemma LooseEqualsStringAgrees(v: JsValue, text: string)
    requires !IsObject(v)
    requires StringToNumber(text).None? || (text == "" && Truthy(v))
    ensures LooseEquals(v, String(text)) == Some(LooseEqualsString(v, text))
  {
    if text == "" {
      assert StringToNumber(text) == Some(0);
    }
  }

  /** TrimEnd keeps the first character of a string that does not start with white space. */
  lemma {:induction false} TrimEndKeepsFirst(s: string)
    requires |s| > 0 && s[0] !in WhiteSpace
    ensures |TrimEnd(s)| > 0 && TrimEnd(s)[0] == s[0]
  {
    if s[|s| - 1] in WhiteSpace {
      assert |s| > 1;
      assert s[..|s| - 1][0] == s[0];
      TrimEndKeepsFirst(s[..|s| - 1]);
    }
  }

  /** StringToNumber reads a string as NaN when it starts with neither white space, a sign nor a digit. */
  lemma NotNumeric(s: string)
    requires |s| > 0 && s[0] !in WhiteSpace && s[0] != '-' && s[0] != '+' && !IsDigit(s[0])
    ensures StringToNumber(s).None?
  {
    assert TrimStart(s) == s;
    TrimEndKeepsFirst(s);
  }

  /** 'private' and the names `typeof` yields are NaN as numbers. */
  lemma GuardStringsNotNumeric()
    ensures StringToNumber("private").None?
    ensures forall t :: t in TypeNames ==> StringToNumber(t).None?
  {
    NotNumeric("private");
    forall t | t in TypeNames
      ensures StringToNumber(t).None?
    {
      assert 'a' <= t[0] <= 'z';
      NotNumeric(t);
    }
  }

  /**
   * Hence the guards' comparisons against 'private' and against the value's
   * own `typeof` name are the standard ones for every value that is not an
   * object.
   */
  lemma GuardComparisonsStandard(v: JsValue, name: string)
    requires !IsObject(v) && (name == "private" || name in TypeNames)
    ensures LooseEquals(v, String(name)) == Some(LooseEqualsString(v, name))
  {
    GuardStringsNotNumeric();
    LooseEqualsStringAgrees(v, name);
  }
}
