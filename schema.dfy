/**
 * The part of zod's object-schema semantics the request validators use: type checks,
 * optional fields, defaults that apply to an undefined input, length minimums, int32
 * bounds and enums, over JavaScript values. A parse either gives the typed value or the
 * first issue, in field order.
 */
module Schema {
  import opened Wrappers
  import opened Js

  datatype IssueCode = InvalidType | TooSmall | TooBig | InvalidValue | Custom

  /** One validation issue: its kind, the field it is about and, where the schema gives one, its message. */
  datatype Issue = Issue(code: IssueCode, path: string, message: Option<string>)

  /** `z.object({...})`: anything but an object is refused; unknown keys are not read. */
  function AsObject(v: Value, path: string): (r: Result<seq<(string, Value)>, Issue>)
    ensures r.Ok? <==> v.Obj?
    ensures r.Ok? ==> r.value == v.fields
  {
    if v.Obj? then Ok(v.fields) else Err(Issue(InvalidType, path, None))
  }

  /** `z.string()`. */
  function ParseString(v: Value, path: string): (r: Result<string, Issue>)
    ensures r.Ok? <==> v.Str?
    ensures r.Ok? ==> r.value == v.s
  {
    if v.Str? then Ok(v.s) else Err(Issue(InvalidType, path, None))
  }

  /** `z.string().optional()`: undefined is absent. */
  function ParseOptionalString(v: Value, path: string): (r: Result<Option<string>, Issue>)
    ensures r == Ok(None) <==> v == Undefined
    ensures r.Ok? <==> v == Undefined || v.Str?
    ensures v.Str? ==> r == Ok(Some(v.s))
  {
    if v == Undefined then Ok(None) else if v.Str? then Ok(Some(v.s)) else Err(Issue(InvalidType, path, None))
  }

  /** `z.string().min(n, message)`, the length in characters. */
  function ParseStringMin(v: Value, n: nat, path: string, message: string): (r: Result<string, Issue>)
    ensures r.Ok? <==> v.Str? && |v.s| >= n
    ensures r.Ok? ==> r.value == v.s
    ensures v.Str? && |v.s| < n ==> r == Err(Issue(TooSmall, path, Some(message)))
  {
    if !v.Str? then Err(Issue(InvalidType, path, None))
    else if |v.s| < n then Err(Issue(TooSmall, path, Some(message)))
    else Ok(v.s)
  }

  /** `z.boolean()`. */
  function ParseBool(v: Value, path: string): (r: Result<bool, Issue>)
    ensures r.Ok? <==> v.Bool?
    ensures r.Ok? ==> r.value == v.b
  {
    if v.Bool? then Ok(v.b) else Err(Issue(InvalidType, path, None))
  }

  /** `z.boolean().optional()`. */
  function ParseOptionalBool(v: Value, path: string): (r: Result<Option<bool>, Issue>)
    ensures r.Ok? <==> v == Undefined || v.Bool?
    ensures v == Undefined ==> r == Ok(None)
    ensures v.Bool? ==> r == Ok(Some(v.b))
  {
    if v == Undefined then Ok(None) else if v.Bool? then Ok(Some(v.b)) else Err(Issue(InvalidType, path, None))
  }

  /** `z.boolean().default(d)`: the default replaces undefined only; `null` is still refused. */
  function ParseBoolDefault(v: Value, d: bool, path: string): (r: Result<bool, Issue>)
    ensures r.Ok? <==> v == Undefined || v.Bool?
    ensures v == Undefined ==> r == Ok(d)
    ensures v.Bool? ==> r == Ok(v.b)
  {
    if v == Undefined then Ok(d) else ParseBool(v, path)
  }

  const Int32Min: int := -0x8000_0000
  const Int32Max: int := 0x7FFF_FFFF

  /** A number zod's `z.int32()` accepts: finite, integral and within 32-bit signed range. */
  predicate IsInt32(n: Number) {
    n.Finite? && n.value.Floor as real == n.value && Int32Min <= n.value.Floor <= Int32Max
  }

  /** `z.int32()`, optionally bounded by `.min(lo, ...)` and `.max(hi, ...)`. */
  function ParseInt32(v: Value, path: string): (r: Result<int, Issue>)
    ensures r.Ok? <==> v.Num? && IsInt32(v.n)
    ensures r.Ok? ==> r.value as real == v.n.value && Int32Min <= r.value <= Int32Max
  {
    if v.Num? && IsInt32(v.n) then Ok(v.n.value.Floor) else Err(Issue(InvalidType, path, None))
  }

  /** `z.int32().default(d)`. */
  function ParseInt32Default(v: Value, d: int, path: string): (r: Result<int, Issue>)
    ensures v == Undefined ==> r == Ok(d)
    ensures v != Undefined ==> r == ParseInt32(v, path)
  {
    if v == Undefined then Ok(d) else ParseInt32(v, path)
  }

  /** `z.int32().min(lo, tooSmall).max(hi, tooBig)`. */
  function ParseInt32Between(v: Value, lo: int, hi: int, path: string, tooSmall: string, tooBig: string)
    : (r: Result<int, Issue>)
    ensures r.Ok? <==> v.Num? && IsInt32(v.n) && lo as real <= v.n.value <= hi as real
    ensures r.Ok? ==> r.value as real == v.n.value
  {
    var n := ParseInt32(v, path);
    if n.Err? then Err(n.error)
    else if n.value < lo then Err(Issue(TooSmall, path, Some(tooSmall)))
    else if n.value > hi then Err(Issue(TooBig, path, Some(tooBig)))
    else n
  }

  /** `z.number().optional()`: a finite number; NaN is refused. */
  function ParseOptionalNumber(v: Value, path: string): (r: Result<Option<real>, Issue>)
    ensures r.Ok? <==> v == Undefined || (v.Num? && v.n.Finite?)
    ensures v == Undefined ==> r == Ok(None)
    ensures v.Num? && v.n.Finite? ==> r == Ok(Some(v.n.value))
  {
    if v == Undefined then Ok(None)
    else if v.Num? && v.n.Finite? then Ok(Some(v.n.value))
    else Err(Issue(InvalidType, path, None))
  }

  /** `z.enum(options)`: one of the listed strings, compared exactly. */
  function ParseEnum(v: Value, options: seq<string>, path: string): (r: Result<string, Issue>)
    ensures r.Ok? <==> v.Str? && v.s in options
    ensures r.Ok? ==> r.value == v.s
  {
    if v.Str? && v.s in options then Ok(v.s) else Err(Issue(InvalidValue, path, None))
  }

  /** `z.array(item)`: every element parsed; the first failing element's issue is reported. */
  function ParseEach<T>(items: seq<Value>, item: Value -> Result<T, Issue>): (r: Result<seq<T>, Issue>)
    ensures r.Ok? <==> forall i :: 0 <= i < |items| ==> item(items[i]).Ok?
    ensures r.Ok? ==> |r.value| == |items| && forall i :: 0 <= i < |items| ==> r.value[i] == item(items[i]).value
  {
    if items == [] then Ok([])
    else
      var front := ParseEach(items[..|items| - 1], item);
      var last := item(items[|items| - 1]);
      if front.Err? then Err(front.error)
      else if last.Err? then Err(last.error)
      else Ok(front.value + [last.value])
  }

  /** `z.array(item).min(n, message)`, and `z.array(item)` with `n == 0`. */
  function ParseArray<T>(v: Value, item: Value -> Result<T, Issue>, n: nat, path: string, message: string)
    : (r: Result<seq<T>, Issue>)
    ensures r.Ok? <==> v.Arr? && |v.items| >= n && ParseEach(v.items, item).Ok?
    ensures r.Ok? ==> r == ParseEach(v.items, item)
    ensures v.Arr? && ParseEach(v.items, item).Ok? && |v.items| < n ==> r == Err(Issue(TooSmall, path, Some(message)))
  {
    if !v.Arr? then Err(Issue(InvalidType, path, None))
    else
      var each := ParseEach(v.items, item);
      if each.Err? then Err(each.error)
      else if |v.items| < n then Err(Issue(TooSmall, path, Some(message)))
      else each
  }

  /** An optional string read from field value `w`: absent exactly when `w` is undefined, else `w`'s own string. */
  predicate OptionalStringOf(w: Value, x: Option<string>) {
    (x.None? <==> w == Undefined) && (x.Some? ==> w == Str(x.value))
  }

  /** An optional boolean read from field value `w`. */
  predicate OptionalBoolOf(w: Value, x: Option<bool>) {
    (x.None? <==> w == Undefined) && (x.Some? ==> w == Bool(x.value))
  }

  /** An optional finite number read from field value `w`. */
  predicate OptionalNumberOf(w: Value, x: Option<real>) {
    (x.None? <==> w == Undefined) && (x.Some? ==> w == Num(Finite(x.value)))
  }

  /** Every element that parses as a string. */
  function StringItem(v: Value): Result<string, Issue> {
    ParseString(v, "")
  }
}
