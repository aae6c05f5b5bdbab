/** The slice of JavaScript's value semantics that the helpers and `send` rely on. */
module Js {
  import opened Wrappers

  /**
   * A JavaScript value as a template helper receives it. Numbers are integers
   * (no NaN, no fractions). Arrays and plain objects are references: `addr`
   * identifies the object, and an array also carries its `length`.
   */
  datatype Value =
    | Undefined
    | Null
    | Bool(b: bool)
    | Num(n: int)
    | Str(s: string)
    | Arr(addr: nat, length: nat)
    | Obj(addr: nat)

  /** The exceptions the modelled code can throw. */
  datatype JsError =
    | TypeError(reading: string)   // a property read on undefined, or a missing method
    | SyntaxError(input: string)   // JSON.parse of a text that is not the expected JSON
    | InputRequired(name: string)  // a required action input that is empty or not supplied

  /** JavaScript truthiness: `undefined`, `null`, `false`, `0` and `''` are falsy. */
  predicate Truthy(v: Value)
    ensures !Truthy(v) <==> v in {Undefined, Null, Bool(false), Num(0), Str("")}
  {
    match v
    case Undefined => false
    case Null => false
    case Bool(b) => b
    case Num(n) => n != 0
    case Str(s) => s != ""
    case Arr(_, _) => true
    case Obj(_) => true
  }

  /** `a === b`: primitives compare by value, arrays and objects by identity. */
  predicate StrictEquals(a: Value, b: Value)
    ensures a.Arr? && b.Arr? ==> (StrictEquals(a, b) <==> a.addr == b.addr)
    ensures a.Obj? && b.Obj? ==> (StrictEquals(a, b) <==> a.addr == b.addr)
    ensures (a.Arr? || a.Obj? || b.Arr? || b.Obj?) && !(a.Arr? && b.Arr?) && !(a.Obj? && b.Obj?) ==> !StrictEquals(a, b)
    ensures !(a.Arr? || a.Obj? || b.Arr? || b.Obj?) ==> (StrictEquals(a, b) <==> a == b)
  {
    match (a, b)
    case (Arr(x, _), Arr(y, _)) => x == y
    case (Obj(x), Obj(y)) => x == y
    case (Arr(_, _), _) => false
    case (Obj(_), _) => false
    case (_, Arr(_, _)) => false
    case (_, Obj(_)) => false
    case _ => a == b
  }

  /** Truthiness of an optional string: present and not empty. */
  predicate Present(o: Option<string>)
  {
    o.Some? && o.value != ""
  }

  /** `o || d` for an optional string `o`: the fallback replaces both a missing and an empty string. */
  function OrElse(o: Option<string>, d: string): (r: string)
    ensures Present(o) ==> r == o.value
    ensures !Present(o) ==> r == d
  {
    if Present(o) then o.value else d
  }

  /** `x?.toString()` rendered into a template literal: a missing value prints as `undefined`. */
  function Show(o: Option<string>): (r: string)
    ensures o.Some? ==> r == o.value
    ensures o.None? ==> r == "undefined"
  {
    if o.Some? then o.value else "undefined"
  }

  /** Strict equality is an equivalence relation on the modelled values. */
  lemma StrictEqualsEquivalence(a: Value, b: Value, c: Value)
    ensures StrictEquals(a, a)
    ensures StrictEquals(a, b) ==> StrictEquals(b, a)
    ensures StrictEquals(a, b) && StrictEquals(b, c) ==> StrictEquals(a, c)
  {
  }
}
