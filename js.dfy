/** Untyped JavaScript values as they arrive from `JSON.parse` or a response
    body, with the two rules the front end relies on: truthiness (`if (x)`,
    `x || y`, `x && y`), property reads and comparison with a number. Numbers
    are integers here; fractions have no place in the model, and NaN appears
    only as a failed conversion (`None`). */
module Js {
  import opened Wrappers
  import opened Strings

  datatype JsValue =
    | Undefined
    | Null
    | Bool(b: bool)
    | Num(n: int)
    | Str(s: string)
    | Arr(items: seq<JsValue>)
    | Obj(fields: map<string, JsValue>)

  /** `null` and `undefined`: reading a property of these throws a TypeError. */
  predicate Nullish(v: JsValue) {
    v.Undefined? || v.Null?
  }

  /** `Boolean(v)`: `false`, `0`, `""`, `null` and `undefined` are falsy, every
      array and object is truthy. */
  predicate Truthy(v: JsValue) {
    match v
    case Undefined => false
    case Null => false
    case Bool(b) => b
    case Num(n) => n != 0
    case Str(s) => s != []
    case Arr(_) => true
    case Obj(_) => true
  }

  /** `a || b`: the left operand when it is truthy, else the right one. */
  function Or(a: JsValue, b: JsValue): (r: JsValue)
    ensures Truthy(r) <==> Truthy(a) || Truthy(b)
    ensures r == a || r == b
  {
    if Truthy(a) then a else b
  }

  /** `typeof v === 'object'` (which holds for `null` and arrays too). */
  predicate IsObjectType(v: JsValue) {
    v.Null? || v.Arr? || v.Obj?
  }

  /** `v.key` on a value that is not `null`/`undefined`: the field of an object,
      `undefined` for a missing field and for every other kind of value. */
  function Field(v: JsValue, key: string): (r: JsValue)
    requires !Nullish(v)
    ensures !v.Obj? ==> r == Undefined
    ensures v.Obj? && key !in v.fields ==> r == Undefined
  {
    match v
    case Obj(fields) => if key in fields then fields[key] else Undefined
    case _ => Undefined
  }

  /** `Number(v)` as a relational comparison with a number applies it: an
      array is first turned into its string (`[]` is "", `[7]` is "7"), an
      object into "[object Object]"; `None` stands for NaN. */
  function CompareNumber(v: JsValue): Option<int> {
    match v
    case Undefined => None
    case Null => Some(0)
    case Bool(b) => Some(if b then 1 else 0)
    case Num(n) => Some(n)
    case Str(s) => ToNumber(s)
    case Arr(_) => ToNumber(ToStr(v))
    case Obj(_) => None
  }

  /** `v < bound` where `bound` is a number: the left side is converted with
      `CompareNumber`, and NaN compares false. */
  predicate LessThan(v: JsValue, bound: int) {
    var x := CompareNumber(v);
    x.Some? && x.value < bound
  }

  /** `v > bound`, converted the same way as `LessThan`. */
  predicate GreaterThan(v: JsValue, bound: int) {
    var x := CompareNumber(v);
    x.Some? && x.value > bound
  }

  /** An empty array compares as 0, and a one-number array as that number. */
  lemma ArraysCompareAsNumbers(n: int, bound: int)
    ensures LessThan(Arr([]), bound) <==> 0 < bound
    ensures GreaterThan(Arr([]), bound) <==> 0 > bound
    ensures LessThan(Arr([Num(n)]), bound) <==> n < bound
    ensures GreaterThan(Arr([Num(n)]), bound) <==> n > bound
  {
    assert ToStr(Arr([])) == "";
    assert Trim("") == "";
    var one := Arr([Num(n)]);
    assert ItemsStr(one, [Num(n)]) == ToStr(Num(n));
    assert ToStr(one) == IntToString(n);
    ToNumberToString(n);
  }

  /** Undefined and objects never compare, on either side of the bound. */
  lemma NaNNeverCompares(fields: map<string, JsValue>, bound: int)
    ensures !LessThan(Undefined, bound) && !GreaterThan(Undefined, bound)
    ensures !LessThan(Obj(fields), bound) && !GreaterThan(Obj(fields), bound)
  {
  }

  /** `String(v)`, as `localStorage.setItem` and template literals apply it.
      An array prints its elements joined by commas, with `null` and
      `undefined` elements left empty. */
  function ToStr(v: JsValue): string
    decreases v, 1
  {
    match v
    case Undefined => "undefined"
    case Null => "null"
    case Bool(b) => if b then "true" else "false"
    case Num(n) => IntToString(n)
    case Str(s) => s
    case Arr(items) => ItemsStr(v, items)
    case Obj(_) => "[object Object]"
  }

  function ItemsStr(ghost parent: JsValue, items: seq<JsValue>): string
    requires forall i :: 0 <= i < |items| ==> items[i] < parent
    decreases parent, 0, |items|
  {
    if items == [] then ""
    else
      var head := if Nullish(items[0]) then "" else ToStr(items[0]);
      if |items| == 1 then head else head + "," + ItemsStr(parent, items[1..])
  }
}
