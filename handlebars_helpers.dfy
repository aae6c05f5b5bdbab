/**
 * The bodies of the template helpers registered in src/handlebars.ts. Each helper
 * is a function of the values the template engine passes to it; the engine itself,
 * and the registration of the helpers in its global table, are not modelled.
 */
module HandlebarsHelpers {
  import opened Wrappers
  import opened Text
  import opened Js

  /** `truncate text size`: `text.substring(0, size)`; a value without `substring` throws. */
  function Truncate(text: Value, size: int): (r: Result<string, JsError>)
    ensures r.Ok? <==> text.Str?
    ensures r.Ok? ==> StartsWith(text.s, r.value)
    ensures r.Ok? ==> |r.value| == if size <= 0 then 0 else if size < |text.s| then size else |text.s|
  {
    match text
    case Str(s) => Ok(if size <= 0 then "" else Take(s, size))
    case _ => Err(TypeError("substring"))
  }

  /** Truncating twice is truncating once to the smaller size. */
  lemma TruncateTwice(s: string, m: int, n: int)
    ensures Truncate(Str(Truncate(Str(s), m).value), n) == Truncate(Str(s), if m < n then m else n)
  {
    var r1 := Truncate(Str(s), m).value;
    var r2 := Truncate(Str(r1), n).value;
    var r3 := Truncate(Str(s), if m < n then m else n).value;
    assert |r2| == |r3|;
    assert r2 == s[..|r2|] && r3 == s[..|r3|];
  }

  /** `default want fallback`: keeps `want` when it is truthy, `0` or `false`. */
  function Default(want: Value, fallback: Value): (r: Value)
    ensures r == want <== Truthy(want) || want == Num(0) || want == Bool(false)
    ensures r == fallback <== want in {Undefined, Null, Str("")}
    ensures r == want || r == fallback
  {
    if Truthy(want) || want == Num(0) || want == Bool(false) then want else fallback
  }

  /** A value `default` does not replace: anything but `undefined`, `null` and `''`. */
  predicate Kept(v: Value)
  {
    v !in {Undefined, Null, Str("")}
  }

  /** `default` replaces exactly the missing values and the empty string. */
  lemma DefaultKeepsExactlyPresent(want: Value, fallback: Value)
    ensures Default(want, fallback) == (if Kept(want) then want else fallback)
  {
  }

  /** Defaulting again with the same fallback changes nothing, and a kept fallback makes the result kept. */
  lemma DefaultIdempotent(want: Value, fallback: Value)
    ensures Default(Default(want, fallback), fallback) == Default(want, fallback)
    ensures Kept(fallback) ==> Kept(Default(want, fallback))
  {
  }

  /** The count `pluralize` reports: the number itself, or the `length` of the value (undefined when it has none). */
  function PluralCount(items: Value): (r: Result<Option<int>, JsError>)
    ensures r.Err? <==> items in {Undefined, Null}
    ensures items.Num? ==> r == Ok(Some(items.n))
    ensures items.Str? ==> r == Ok(Some(|items.s|))
    ensures items.Arr? ==> r == Ok(Some(items.length))
  {
    match items
    case Num(n) => Ok(Some(n))
    case Str(s) => Ok(Some(|s|))
    case Arr(_, len) => Ok(Some(len))
    case Undefined => Err(TypeError("length"))
    case Null => Err(TypeError("length"))
    case _ => Ok(None)
  }

  /**
   * The singular noun. `args` are the helper's arguments after `items`, and the engine
   * always appends its options object, so `args.length` is `|userArgs| + 1`.
   */
  function Singular(userArgs: seq<string>): string
  {
    if |userArgs| + 1 == 1 then "item" else userArgs[0]
  }

  /** The plural noun: the second user argument when exactly two are given, otherwise singular + 's'. */
  function Plural(userArgs: seq<string>): string
  {
    if |userArgs| + 1 == 3 then userArgs[1] else Singular(userArgs) + "s"
  }

  /** `pluralize items [singular [plural]]`. */
  function Pluralize(items: Value, userArgs: seq<string>): (r: Result<string, JsError>)
    ensures r.Err? <==> items in {Undefined, Null}
    ensures r.Ok? && PluralCount(items).value == Some(0) ==> r.value == "no " + Plural(userArgs)
    ensures r.Ok? && PluralCount(items).value == Some(1) ==> r.value == "1 " + Singular(userArgs)
    ensures r.Ok? && PluralCount(items).value.Some? && PluralCount(items).value.value !in {0, 1} ==>
              r.value == IntToString(PluralCount(items).value.value) + " " + Plural(userArgs)
    ensures r.Ok? && PluralCount(items).value.None? ==> r.value == "undefined " + Plural(userArgs)
  {
    match PluralCount(items)
    case Err(e) => Err(e)
    case Ok(count) =>
      var singular := Singular(userArgs);
      var plural := Plural(userArgs);
      if count == Some(0) then Ok("no " + plural)
      else if count == Some(1) then Ok("1 " + singular)
      else Ok(Show(if count.Some? then Some(IntToString(count.value)) else None) + " " + plural)
  }

  /** Which nouns each number of user arguments selects. */
  lemma PluralNouns(singular: string, plural: string, extra: seq<string>)
    ensures Singular([]) == "item" && Plural([]) == "items"
    ensures Singular([singular]) == singular && Plural([singular]) == singular + "s"
    ensures Singular([singular, plural]) == singular && Plural([singular, plural]) == plural
    ensures Plural([singular, plural] + extra) == (if extra == [] then plural else singular + "s")
  {
  }

  /** The pluralize cases exercised by the helper's unit tests. */
  lemma PluralizeExamples()
    ensures Pluralize(Arr(0, 0), []) == Ok("no items")
    ensures Pluralize(Num(7), ["attempt"]) == Ok("7 attempts")
    ensures Pluralize(Arr(1, 1), ["commit"]) == Ok("1 commit")
    ensures Pluralize(Arr(2, 4), ["attendee"]) == Ok("4 attendees")
    ensures Pluralize(Arr(2, 4), ["person", "people"]) == Ok("4 people")
  {
    PluralizeNone();
    PluralizeOne();
    PluralizeAttempts();
    PluralizeCounted(Arr(2, 4), 4, "4", ["attendee"], "attendees", "4 attendees");
    PluralizeCounted(Arr(2, 4), 4, "4", ["person", "people"], "people", "4 people");
  }

  /** A number reads itself and the plural noun. */
  lemma PluralizeAttempts()
    ensures Pluralize(Num(7), ["attempt"]) == Ok("7 attempts")
  {
    PluralizeCounted(Num(7), 7, "7", ["attempt"], "attempts", "7 attempts");
  }

  /** An empty list reads "no items". */
  lemma PluralizeNone()
    ensures Pluralize(Arr(0, 0), []) == Ok("no items")
  {
    assert Plural([]) == "items";
    assert "no " + "items" == "no items";
  }

  /** A one-element list reads "1" and the singular noun. */
  lemma PluralizeOne()
    ensures Pluralize(Arr(1, 1), ["commit"]) == Ok("1 commit")
  {
    assert Singular(["commit"]) == "commit";
    assert "1 " + "commit" == "1 commit";
  }

  /** A count of two or more reads the number and the plural noun. */
  lemma PluralizeCounted(items: Value, n: int, digits: string, userArgs: seq<string>, plural: string, text: string)
    requires PluralCount(items) == Ok(Some(n)) && n !in {0, 1}
    requires IntToString(n) == digits && Plural(userArgs) == plural && digits + " " + plural == text
    ensures Pluralize(items, userArgs) == Ok(text)
  {
  }

  /** `eq a b`: strict equality, as a boolean value. */
  function Eq(a: Value, b: Value): (r: Value)
    ensures r.Bool?
    ensures r.b <==> StrictEquals(a, b)
  {
    Bool(StrictEquals(a, b))
  }

  /** `neq a b`: strict inequality. */
  function Neq(a: Value, b: Value): (r: Value)
    ensures r.Bool?
    ensures r.b <==> !StrictEquals(a, b)
  {
    Bool(!StrictEquals(a, b))
  }

  /** `neq` is the exact complement of `eq`. */
  lemma NeqIsNotEq(a: Value, b: Value)
    ensures Neq(a, b) == Not(Eq(a, b))
    ensures Truthy(Neq(a, b)) != Truthy(Eq(a, b))
  {
  }

  /** `not a`: the negated truthiness of `a`. */
  function Not(a: Value): (r: Value)
    ensures r.Bool? && (Truthy(r) <==> !Truthy(a))
  {
    Bool(!Truthy(a))
  }

  /** `and a b`: JavaScript's `a && b`, which returns one of its operands. */
  function And(a: Value, b: Value): (r: Value)
    ensures r == a || r == b
    ensures Truthy(r) <==> Truthy(a) && Truthy(b)
    ensures !Truthy(a) ==> r == a
    ensures Truthy(a) ==> r == b
  {
    if Truthy(a) then b else a
  }

  /** `or a b`: JavaScript's `a || b`, which returns one of its operands. */
  function Or(a: Value, b: Value): (r: Value)
    ensures r == a || r == b
    ensures Truthy(r) <==> Truthy(a) || Truthy(b)
    ensures Truthy(a) ==> r == a
    ensures !Truthy(a) ==> r == b
  {
    if Truthy(a) then a else b
  }

  /** On booleans the three helpers are the boolean truth tables. */
  lemma BooleanTables(x: bool, y: bool)
    ensures Not(Bool(x)) == Bool(!x)
    ensures And(Bool(x), Bool(y)) == Bool(x && y)
    ensures Or(Bool(x), Bool(y)) == Bool(x || y)
    ensures And(Not(Bool(false)), Or(Bool(true), Bool(false))) == Bool(true)
  {
  }

  /** De Morgan's laws hold of truthiness for any operands. */
  lemma DeMorgan(a: Value, b: Value)
    ensures Truthy(Not(And(a, b))) == Truthy(Or(Not(a), Not(b)))
    ensures Truthy(Not(Or(a, b))) == Truthy(And(Not(a), Not(b)))
  {
  }

  /**
   * `#ifeq a b`: renders the main block when `a === b`, else the inverse block.
   * `fn` and `inverse` are what the engine renders for the two blocks.
   */
  function IfEq(a: Value, b: Value, fn: string, inverse: string): (r: string)
    ensures StrictEquals(a, b) ==> r == fn
    ensures !StrictEquals(a, b) ==> r == inverse
  {
    if StrictEquals(a, b) then fn else inverse
  }

  /** `#ifneq a b`: renders the main block when `a !== b`, else the inverse block. */
  function IfNeq(a: Value, b: Value, fn: string, inverse: string): (r: string)
    ensures !StrictEquals(a, b) ==> r == fn
    ensures StrictEquals(a, b) ==> r == inverse
  {
    if !StrictEquals(a, b) then fn else inverse
  }

  /** `#ifneq` is `#ifeq` with its two blocks exchanged. */
  lemma IfNeqSwapsIfEq(a: Value, b: Value, fn: string, inverse: string)
    ensures IfNeq(a, b, fn, inverse) == IfEq(a, b, inverse, fn)
    ensures IfEq(a, a, fn, inverse) == fn && IfNeq(a, a, fn, inverse) == inverse
  {
    Js.StrictEqualsEquivalence(a, a, a);
  }
}
