/** JavaScript values as they flow through the front end: form fields, the JSON the
    back end answers with, and the objects sent as request bodies. */
module JsValue {
  import opened Wrappers
  import opened JsText
  import opened JsNumber

  datatype Value =
    | Undefined
    | Null
    | Bool(b: bool)
    | Num(n: Number)
    | NaN
    | Str(s: string)
    | Arr(items: seq<Value>)
    | Obj(fields: map<string, Value>)

  /** An object literal such as a request payload, before `JSON.stringify`. */
  type Payload = map<string, Value>

  /** JavaScript truthiness: `if (v)`, `!v`, `v || w`. */
  predicate Truthy(v: Value)
  {
    match v
    case Undefined => false
    case Null => false
    case NaN => false
    case Bool(b) => b
    case Num(n) => n.units != 0
    case Str(s) => s != ""
    case Arr(_) => true
    case Obj(_) => true
  }

  /** `undefined` or `null`, the values optional chaining stops at. */
  predicate Nullish(v: Value)
  {
    v.Undefined? || v.Null?
  }

  /** `a || b`. */
  function Or(a: Value, b: Value): Value
  {
    if Truthy(a) then a else b
  }

  /** `a === b` on the primitive values the pages compare: `NaN` equals nothing. Objects
      and arrays are compared by contents, where JavaScript compares references. */
  predicate StrictEquals(a: Value, b: Value)
  {
    !a.NaN? && !b.NaN? && a == b
  }

  /** `String(v)`. */
  function ToJsString(v: Value): string
  {
    match v
    case Undefined => "undefined"
    case Null => "null"
    case Bool(b) => if b then "true" else "false"
    case Num(n) => NumberToString(n)
    case NaN => "NaN"
    case Str(s) => s
    case Arr(items) =>
      Join(seq(|items|, i requires 0 <= i < |items| =>
        if Nullish(items[i]) then "" else ToJsString(items[i])), ',')
    case Obj(_) => "[object Object]"
  }

  /** `v?.key`: `undefined` when `v` is `undefined`/`null` or has no such property. */
  function OptGet(v: Value, key: string): Value
  {
    if v.Obj? && key in v.fields then v.fields[key] else Undefined
  }

  /** `r.key` for an object's own fields. */
  function Field(r: Payload, key: string): (v: Value)
    ensures key !in r ==> v == Undefined
  {
    if key in r then r[key] else Undefined
  }

  /** `v.key`: reading a property of `undefined`/`null` throws a `TypeError`. */
  function Get(v: Value, key: string): (r: Result<Value, string>)
    ensures r.Err? <==> Nullish(v)
    ensures r.Ok? ==> r.value == OptGet(v, key)
  {
    if Nullish(v) then Err("TypeError") else Ok(OptGet(v, key))
  }

  /** `parseInt(v, 10)`, which reads `String(v)`. A number is read directly as its
      integer part; `ParseIntValueReadsString` shows this is what reading its string
      gives. */
  function ParseIntValue(v: Value): Option<int>
  {
    match v
    case Num(n) => Some(Truncate(n))
    case NaN => None
    case _ => ParseInt(ToJsString(v))
  }

  /** `parseFloat(v)`, which reads `String(v)`. A number is read directly;
      `ParseFloatValueReadsString` shows this is what reading its string gives. */
  function ParseFloatValue(v: Value): Option<Number>
  {
    match v
    case Num(n) => Some(n)
    case NaN => None
    case _ => ParseFloat(ToJsString(v))
  }

  /** The number a parse gives as a value: `NaN` when nothing was parsed. */
  function NumberOrNaN(o: Option<Number>): (r: Value)
    ensures r.Num? <==> o.Some?
    ensures o.Some? ==> r == Num(o.value)
    ensures o.None? ==> r == NaN
  {
    if o.Some? then Num(o.value) else NaN
  }

  /** `Math.random().toString(36).substring(2, 2 + n).toUpperCase()`, given the base-36
      digits the random number prints after `0.`. */
  function RandomToken(randomDigits: string, n: nat): (r: string)
    ensures |r| <= n && |r| <= |randomDigits|
    ensures forall i :: 0 <= i < |r| ==> !IsLowerLetter(r[i])
  {
    ToUpper(Prefix(randomDigits, n))
  }

  /** Reading a number directly is reading `String(v)`: `parseFloat(v)` parses the
      decimal string of a number back to the number, and `'NaN'` to `NaN`. */
  lemma ParseFloatValueReadsString(v: Value)
    ensures ParseFloatValue(v) == ParseFloat(ToJsString(v))
  {
    match v {
      case Num(n) =>
        ParseFloatOfNumberToString(n);
      case NaN =>
        NaNStringParsesToNothing();
      case _ =>
        assert !v.Num? && !v.NaN?;
    }
  }

  /** Reading a number directly is reading `String(v)`: `parseInt(v, 10)` of a number
      stops at its decimal point and keeps the sign, and `'NaN'` gives `NaN`. */
  lemma ParseIntValueReadsString(v: Value)
    ensures ParseIntValue(v) == ParseInt(ToJsString(v))
  {
    match v {
      case Num(n) =>
        ParseIntOfNumberToString(n);
      case NaN =>
        NaNStringParsesToNothing();
      case _ =>
        assert !v.Num? && !v.NaN?;
    }
  }

  /** Neither `parseFloat('NaN')` nor `parseInt('NaN', 10)` reads a number. */
  lemma NaNStringParsesToNothing()
    ensures ParseFloat("NaN") == None && ParseInt("NaN") == None
  {
    assert TrimStart("NaN") == "NaN";
  }

  /** `parseInt(v, 10)` of an integer-valued number gives the integer back. */
  lemma ParseIntOfIntNum(i: int)
    ensures ParseIntValue(Num(FromInt(i))) == Some(i)
  {
  }
}
