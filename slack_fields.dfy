/** The attachment fields of src/slack.ts: the default field list and the guard-filtered, parsed field list. */
module SlackFields {
  import opened Wrappers
  import opened Js
  import opened SlackGuards

  /** The `short` flag as configured: a boolean, or text such as `'true'` from a YAML file. */
  datatype ShortValue = ShortBool(b: bool) | ShortText(t: string)

  /** A field as configured: title and value are templates; `short` may be missing. */
  datatype FieldBody = FieldBody(title: string, value: string, short: Option<ShortValue>)

  type FieldSpec = Guarded<FieldBody>

  /** A field as it goes into the attachment, with its `short` flag parsed. */
  datatype Field = Field(title: string, value: string, short: bool)

  /** `JSON.parse(text)` where a boolean is expected. */
  function ParseJsonBool(text: string): (r: Result<bool, JsError>)
    ensures r.Ok? <==> text in {"true", "false"}
    ensures r.Ok? ==> (r.value <==> text == "true")
    ensures r.Err? ==> r.error == SyntaxError(text)
  {
    if text == "true" then Ok(true)
    else if text == "false" then Ok(false)
    else Err(SyntaxError(text))
  }

  /** `x.toString()` of a `short` value. */
  function ShortText(v: ShortValue): string
  {
    match v
    case ShortBool(b) => if b then "true" else "false"
    case ShortText(t) => t
  }

  /** `JSON.parse(field.short.toString())`: a missing flag throws on `toString`, a bad text on parsing. */
  function ParseShort(v: Option<ShortValue>): (r: Result<bool, JsError>)
    ensures v.Some? && v.value.ShortBool? ==> r == Ok(v.value.b)
    ensures v.None? ==> r.Err? && r.error.TypeError?
    ensures v.Some? && v.value.ShortText? ==> r == ParseJsonBool(v.value.t)
    ensures r.Err? <==> v.None? || (v.value.ShortText? && v.value.t !in {"true", "false"})
  {
    match v
    case None => Err(TypeError("toString"))
    case Some(s) => ParseJsonBool(ShortText(s))
  }

  /** Converts one kept field, or reports why its `short` flag does not parse. */
  function ParseField(f: FieldBody): (r: Result<Field, JsError>)
    ensures r.Ok? <==> ParseShort(f.short).Ok?
    ensures r.Ok? ==> r.value == Field(f.title, f.value, ParseShort(f.short).value)
    ensures r.Err? ==> r.error == ParseShort(f.short).error
  {
    match ParseShort(f.short)
    case Err(e) => Err(e)
    case Ok(b) => Ok(Field(f.title, f.value, b))
  }

  /** Converts the kept fields in order; the first field whose flag does not parse aborts. */
  function ParseFields(xs: seq<FieldBody>): (r: Result<seq<Field>, JsError>)
    ensures r.Ok? <==> forall i :: 0 <= i < |xs| ==> ParseShort(xs[i].short).Ok?
    ensures r.Ok? ==> |r.value| == |xs|
    ensures r.Ok? ==> forall i :: 0 <= i < |xs| ==>
              r.value[i] == Field(xs[i].title, xs[i].value, ParseShort(xs[i].short).value)
  {
    if xs == [] then Ok([])
    else
      var init := xs[..|xs| - 1];
      assert forall i :: 0 <= i < |init| ==> init[i] == xs[i];
      match ParseFields(init)
      case Err(e) => Err(e)
      case Ok(done) =>
        match ParseField(xs[|xs| - 1])
        case Err(e) => Err(e)
        case Ok(f) => Ok(done + [f])
  }

  /** Parsing a concatenation parses the first part, then the second; the first failure wins. */
  lemma {:induction false} ParseFieldsAppend(a: seq<FieldBody>, b: seq<FieldBody>)
    ensures ParseFields(a + b) ==
      match ParseFields(a)
      case Err(e) => Err(e)
      case Ok(x) => (match ParseFields(b) case Err(e) => Err(e) case Ok(y) => Ok(x + y))
    decreases |b|
  {
    if b == [] {
      assert a + b == a;
      match ParseFields(a) {
        case Err(e) =>
        case Ok(x) => assert x + [] == x;
      }
    } else {
      var b' := b[..|b| - 1];
      assert (a + b)[..|a + b| - 1] == a + b';
      assert (a + b)[|a + b| - 1] == b[|b| - 1];
      ParseFieldsAppend(a, b');
      match ParseFields(a) {
        case Err(e) =>
        case Ok(x) =>
          match ParseFields(b') {
            case Err(e) =>
            case Ok(y) =>
              match ParseField(b[|b| - 1]) {
                case Err(e) =>
                case Ok(f) => assert x + y + [f] == x + (y + [f]);
              }
          }
      }
    }
  }

  /** Once a prefix fails to parse, no continuation can repair it. */
  lemma ParseFieldsFailureSticks(a: seq<FieldBody>, b: seq<FieldBody>)
    requires ParseFields(a).Err?
    ensures ParseFields(a + b) == ParseFields(a)
  {
    ParseFieldsAppend(a, b);
  }

  /** Parsing one more field extends the parsed list, or fails with that field's error. */
  lemma ParseFieldsSnoc(xs: seq<FieldBody>, x: FieldBody)
    ensures ParseFields(xs + [x]) ==
      match ParseFields(xs)
      case Err(e) => Err(e)
      case Ok(done) => (match ParseField(x) case Err(e) => Err(e) case Ok(f) => Ok(done + [f]))
  {
    assert (xs + [x])[..|xs|] == xs;
    assert (xs + [x])[|xs|] == x;
  }

  /**
   * The loop of src/slack.ts over the configured (or default) fields: every field whose guard
   * matches is pushed with its `short` flag parsed; a flag that does not parse throws.
   */
  method FilterFields(specs: seq<FieldSpec>, status: string) returns (r: Result<seq<Field>, JsError>)
    ensures r == ParseFields(Filter(specs, status))
  {
    var out: seq<Field> := [];
    for i := 0 to |specs|
      invariant ParseFields(Filter(specs[..i], status)) == Ok(out)
    {
      var spec := specs[i];
      if Keeps(spec.guard, status) {
        KeptFieldAt(specs, i, status, out);
        var short := ParseShort(spec.item.short);
        if short.Err? {
          return Err(short.error);
        }
        out := out + [Field(spec.item.title, spec.item.value, short.value)];
      } else {
        ParseFilterStep(specs, i, status);
      }
    }
    assert specs[..|specs|] == specs;
    r := Ok(out);
  }

  /** One more entry of the field loop: a kept field is parsed onto the result, a dropped one changes nothing. */
  lemma ParseFilterStep(specs: seq<FieldSpec>, i: nat, status: string)
    requires i < |specs|
    ensures ParseFields(Filter(specs[..i + 1], status)) ==
      if !Keeps(specs[i].guard, status) then ParseFields(Filter(specs[..i], status))
      else
        match ParseFields(Filter(specs[..i], status))
        case Err(e) => Err(e)
        case Ok(done) => (match ParseField(specs[i].item) case Err(e) => Err(e) case Ok(f) => Ok(done + [f]))
  {
    var done := Filter(specs[..i], status);
    assert specs[..i + 1] == specs[..i] + [specs[i]];
    FilterSnoc(specs[..i], specs[i], status);
    if Keeps(specs[i].guard, status) {
      ParseFieldsSnoc(done, specs[i].item);
    } else {
      assert done + [] == done;
    }
  }

  /** A kept entry of the field loop: its parsed field extends the result, or its parse error ends the loop. */
  lemma KeptFieldStep(front: seq<FieldSpec>, x: FieldSpec, back: seq<FieldSpec>, status: string, out: seq<Field>)
    requires Keeps(x.guard, status) && ParseFields(Filter(front, status)) == Ok(out)
    ensures ParseShort(x.item.short).Err? ==>
              ParseFields(Filter(front + [x] + back, status)) == Err(ParseShort(x.item.short).error)
    ensures ParseShort(x.item.short).Ok? ==>
              ParseFields(Filter(front + [x], status)) == Ok(out + [Field(x.item.title, x.item.value, ParseShort(x.item.short).value)])
  {
    var item := x.item;
    FilterSnoc(front, x, status);
    ParseFieldsSnoc(Filter(front, status), item);
    match ParseShort(item.short)
    case Err(e) =>
      assert ParseField(item) == Err(e);
      ParseFilterFailure(front + [x], back, status);
    case Ok(b) =>
      assert ParseField(item) == Ok(Field(item.title, item.value, b));
  }

  /** A sequence around its entry `i`. */
  lemma SplitAround<T>(s: seq<T>, i: nat)
    requires i < |s|
    ensures s[..i + 1] == s[..i] + [s[i]]
    ensures s[..i] + [s[i]] + s[i + 1..] == s
  {
    assert s[..i + 1] == s[..i] + [s[i]];
    assert s[..i] + [s[i]] + s[i + 1..] == s;
  }

  /** `KeptFieldStep` for entry `i` of the loop. */
  lemma KeptFieldAt(specs: seq<FieldSpec>, i: nat, status: string, out: seq<Field>)
    requires i < |specs| && Keeps(specs[i].guard, status)
    requires ParseFields(Filter(specs[..i], status)) == Ok(out)
    ensures ParseShort(specs[i].item.short).Err? ==>
              ParseFields(Filter(specs, status)) == Err(ParseShort(specs[i].item.short).error)
    ensures ParseShort(specs[i].item.short).Ok? ==>
              ParseFields(Filter(specs[..i + 1], status)) ==
              Ok(out + [Field(specs[i].item.title, specs[i].item.value, ParseShort(specs[i].item.short).value)])
  {
    SplitAround(specs, i);
    KeptFieldStep(specs[..i], specs[i], specs[i + 1..], status, out);
  }

  /** A parse failure among the kept fields of a prefix is the outcome of the whole loop. */
  lemma ParseFilterFailure(front: seq<FieldSpec>, back: seq<FieldSpec>, status: string)
    requires ParseFields(Filter(front, status)).Err?
    ensures ParseFields(Filter(front + back, status)) == ParseFields(Filter(front, status))
  {
    FilterAppend(front, back, status);
    ParseFieldsFailureSticks(Filter(front, status), Filter(back, status));
  }

  /** A field dropped by its guard is never parsed, wherever it stands, so a bad `short` flag on it is harmless. */
  lemma DroppedFieldNeverParsed(a: seq<FieldSpec>, bad: FieldSpec, b: seq<FieldSpec>, status: string)
    requires !Keeps(bad.guard, status)
    ensures Filter(a + [bad] + b, status) == Filter(a + b, status)
    ensures ParseFields(Filter(a + [bad] + b, status)) == ParseFields(Filter(a + b, status))
  {
    FilterAppend(a + [bad], b, status);
    FilterSnoc(a, bad, status);
    assert Filter(a, status) + [] == Filter(a, status);
    FilterAppend(a, b, status);
  }

  const JobStepsTitle := "Job Steps"
  const JobMatrixTitle := "Job Matrix"

  /** The default "Job Steps" field: one line per step, rendered with the `icon` helper. */
  const JobStepsField: FieldSpec := Guarded(
    FieldBody(JobStepsTitle, "{{#each jobSteps}}{{icon this.outcome}} {{@key}}\n{{~/each}}", Some(ShortBool(false))),
    Some(Always))

  /** The default "Job Matrix" field: one `key: value` line per matrix entry. */
  const JobMatrixField: FieldSpec := Guarded(
    FieldBody(JobMatrixTitle, "{{#each jobMatrix}}{{@key}}: {{this}}\n{{~/each}}", Some(ShortBool(false))),
    Some(Always))
}
