/** A value that may be absent. */
module Wrappers {
  datatype Option<+T> = None | Some(value: T)
}

/**
 * The JavaScript values that the compiler wrapper inspects, with the two
 * tests of the language it relies on: `typeof` and truthiness.
 */
module JsValues {

  /**
   * A JavaScript value. `Obj` lists the property writes of an object in
   * the order they were made (see `JsObjects.OwnEntries` for the keys it
   * ends up with). `Func` stands for a function, told apart by an identity;
   * it is `plain` when its class is `Function` (an ordinary function, arrow
   * function, method or class) and not plain for an async function, a
   * generator function or an async generator function, whose classes are
   * `AsyncFunction`, `GeneratorFunction` and `AsyncGeneratorFunction`.
   * Numbers are integers: fractions and NaN play no part here.
   */
  datatype JsValue =
    | Undef
    | Null
    | Bool(b: bool)
    | Num(n: int)
    | Str(s: string)
    | Arr(elems: seq<JsValue>)
    | Obj(props: seq<(string, JsValue)>)
    | Func(id: nat, plain: bool)

  /** The result of the `typeof` operator. */
  function TypeOf(v: JsValue): (t: string)
    ensures t == "string" <==> v.Str?
    ensures t == "function" <==> v.Func?
    ensures t == "object" <==> v.Null? || v.Arr? || v.Obj?
  {
    match v
    case Undef => "undefined"
    case Null => "object"
    case Bool(_) => "boolean"
    case Num(_) => "number"
    case Str(_) => "string"
    case Arr(_) => "object"
    case Obj(_) => "object"
    case Func(_, _) => "function"
  }

  /** What `if (v)` and `!v` decide: the falsy values are exactly `undefined`, `null`, `false`, `0` and `""`. */
  predicate Truthy(v: JsValue)
    ensures Truthy(v) <==> v !in {Undef, Null, Bool(false), Num(0), Str("")}
  {
    match v
    case Undef => false
    case Null => false
    case Bool(b) => b
    case Num(n) => n != 0
    case Str(s) => s != ""
    case _ => true
  }
}
