/** JavaScript values as they reach the gateway (a parsed JSON body or a query
    string), and the class-validator checks the DTOs put on them. */
module JsValues {
  import opened Wrappers

  /** A JavaScript value. Numbers are finite (a JSON body cannot carry NaN or
      Infinity); an object is its own enumerable properties. */
  datatype JsValue =
    | JsUndefined
    | JsNull
    | JsBool(b: bool)
    | JsNumber(n: real)
    | JsString(s: string)
    | JsArray(items: seq<JsValue>)
    | JsObject(props: map<string, JsValue>)

  /** A value a JSON text can denote: undefined occurs nowhere in it. */
  predicate IsJson(v: JsValue) {
    match v
    case JsUndefined => false
    case JsArray(items) => forall i :: 0 <= i < |items| ==> IsJson(items[i])
    case JsObject(props) => forall k :: k in props ==> IsJson(props[k])
    case _ => true
  }

  /** `JSON.parse(JSON.stringify(v))` below the top level: an object loses
      the properties whose value is undefined, an array holds null in place
      of undefined. The result is always a JSON value. */
  function JsonReparse(v: JsValue): (r: JsValue)
    ensures IsJson(r)
  {
    match v
    case JsUndefined => JsNull
    case JsArray(items) => JsArray(seq(|items|, i requires 0 <= i < |items| => JsonReparse(items[i])))
    case JsObject(props) => JsObject(map k | k in props && !props[k].JsUndefined? :: JsonReparse(props[k]))
    case _ => v
  }

  /** Going through JSON text changes a value exactly when undefined occurs
      in it. */
  lemma {:induction false} JsonReparseExact(v: JsValue)
    ensures JsonReparse(v) == v <==> IsJson(v)
  {
    match v
    case JsUndefined =>
    case JsArray(items) =>
      forall i | 0 <= i < |items| {
        JsonReparseExact(items[i]);
      }
      if !IsJson(v) {
        var i :| 0 <= i < |items| && !IsJson(items[i]);
        assert JsonReparse(v).items[i] != items[i];
      } else {
        assert JsonReparse(v).items == items;
      }
    case JsObject(props) =>
      forall k | k in props {
        JsonReparseExact(props[k]);
      }
      if !IsJson(v) {
        var k :| k in props && !IsJson(props[k]);
        if props[k].JsUndefined? {
          assert k !in JsonReparse(v).props;
        } else {
          assert JsonReparse(v).props[k] != props[k];
        }
      } else {
        assert JsonReparse(v).props == props;
      }
    case _ =>
  }

  /** `obj[key]`: a missing property reads as undefined. */
  function Prop(props: map<string, JsValue>, key: string): (v: JsValue)
    ensures key !in props ==> v == JsUndefined
    ensures key in props ==> v == props[key]
  {
    if key in props then props[key] else JsUndefined
  }

  /** @IsOptional(): null and undefined skip every other check of the property. */
  predicate IsMissing(v: JsValue) {
    v.JsUndefined? || v.JsNull?
  }

  /** @IsString(): `typeof value === 'string'`. */
  predicate IsString(v: JsValue) {
    v.JsString?
  }

  /** @IsNotEmpty(): neither '', null nor undefined. */
  predicate IsNotEmpty(v: JsValue) {
    v != JsString("") && !IsMissing(v)
  }

  /** @IsNumber() with default options: `typeof value === 'number'`. */
  predicate IsNumber(v: JsValue) {
    v.JsNumber?
  }

  predicate IsIntegral(r: real) {
    r.Floor as real == r
  }

  /** @IsInt(): a number for which `Number.isInteger` holds. */
  predicate IsInt(v: JsValue) {
    v.JsNumber? && IsIntegral(v.n)
  }

  /** @Min(m): a number no smaller than m. */
  predicate Min(v: JsValue, m: real) {
    v.JsNumber? && v.n >= m
  }

  /** @Max(m): a number no larger than m. */
  predicate Max(v: JsValue, m: real) {
    v.JsNumber? && v.n <= m
  }

  /** @IsBoolean(). */
  predicate IsBoolean(v: JsValue) {
    v.JsBool?
  }

  predicate IsHexDigit(c: char) {
    ('0' <= c <= '9') || ('a' <= c <= 'f') || ('A' <= c <= 'F')
  }

  /** The UUID shape validator.js checks when no version is given (its
      loose pattern): five groups of 8, 4, 4, 4 and 12 hexadecimal digits,
      in either case, joined by '-'. The version and variant digits are not
      looked at. */
  predicate IsUuidString(s: string) {
    && |s| == 36
    && (forall i :: 0 <= i < 36 && i in {8, 13, 18, 23} ==> s[i] == '-')
    && (forall i :: 0 <= i < 36 && i !in {8, 13, 18, 23} ==> IsHexDigit(s[i]))
  }

  /** @IsUUID(): a string of UUID shape. */
  predicate IsUuid(v: JsValue) {
    v.JsString? && IsUuidString(v.s)
  }

  /** A field that is optional but must satisfy `check` when present. */
  predicate Optional(v: JsValue, check: JsValue -> bool) {
    IsMissing(v) || check(v)
  }
}
