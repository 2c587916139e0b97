/**
 * Parameter validation in the style of the object schemas the server declares
 * with its validation library: every field has a name, an optional flag and a
 * list of string checks. Unknown keys are dropped from the parsed result; every
 * failing field contributes its own issues, in declaration order.
 *
 * A second, looser notion of schema models the JSON schemas the server also
 * declares for its tools in its capabilities option (property names, optional
 * enum lists, required names).
 */
module Schema {
  import opened Wrappers

  /** A caller-supplied parameter value. Every JSON value that is not a string collapses to NonString. */
  datatype Value = Str(s: string) | NonString

  /** The parameter object of one tool call. A key that is absent is an absent parameter. */
  type Arguments = map<string, Value>

  /** The validation library's CIDR parser is not part of this model: it is passed in. */
  type CidrParser = string -> bool

  /** One check that a string value must pass. */
  datatype Check = NonEmpty | OneOf(options: seq<string>) | Cidr

  datatype FieldSpec = FieldSpec(name: string, optional: bool, checks: seq<Check>)

  type Shape = seq<FieldSpec>

  datatype Problem = Missing | NotAString | Failed(check: Check)

  /** A validation failure, naming the field it is about. */
  datatype Issue = Issue(field: string, problem: Problem)

  predicate Holds(check: Check, v: string, isCidr: CidrParser) {
    match check
    case NonEmpty => |v| > 0
    case OneOf(options) => v in options
    case Cidr => isCidr(v)
  }

  predicate AllHold(checks: seq<Check>, v: string, isCidr: CidrParser) {
    checks == [] || (Holds(checks[0], v, isCidr) && AllHold(checks[1..], v, isCidr))
  }

  lemma AllHoldOne(c: Check, isCidr: CidrParser)
    ensures forall v :: AllHold([c], v, isCidr) <==> Holds(c, v, isCidr)
  {
    assert [c][1..] == [];
  }

  lemma AllHoldTwo(c: Check, d: Check, isCidr: CidrParser)
    ensures forall v :: AllHold([c, d], v, isCidr) <==> Holds(c, v, isCidr) && Holds(d, v, isCidr)
  {
    assert [c, d][1..] == [d];
    AllHoldOne(d, isCidr);
  }

  /** A field is acceptable when it is absent and optional, or present as a string passing every check. */
  predicate FieldAccepts(f: FieldSpec, args: Arguments, isCidr: CidrParser) {
    if f.name !in args then f.optional
    else args[f.name].Str? && AllHold(f.checks, args[f.name].s, isCidr)
  }

  predicate ShapeAccepts(shape: Shape, args: Arguments, isCidr: CidrParser) {
    forall i :: 0 <= i < |shape| ==> FieldAccepts(shape[i], args, isCidr)
  }

  function Names(shape: Shape): set<string> {
    set f | f in shape :: f.name
  }

  /** The issues for the checks a present string value fails, in check order. */
  function FailedChecks(field: string, checks: seq<Check>, v: string, isCidr: CidrParser): (r: seq<Issue>)
    ensures r == [] <==> AllHold(checks, v, isCidr)
    ensures forall j :: 0 <= j < |r| ==>
      r[j].field == field && r[j].problem.Failed? && r[j].problem.check in checks
      && !Holds(r[j].problem.check, v, isCidr)
  {
    if checks == [] then []
    else
      var rest := FailedChecks(field, checks[1..], v, isCidr);
      if Holds(checks[0], v, isCidr) then rest
      else [Issue(field, Failed(checks[0]))] + rest
  }

  function FieldIssues(f: FieldSpec, args: Arguments, isCidr: CidrParser): (r: seq<Issue>)
    ensures r == [] <==> FieldAccepts(f, args, isCidr)
    ensures forall j :: 0 <= j < |r| ==> r[j].field == f.name
    ensures f.name !in args && !f.optional ==> r == [Issue(f.name, Missing)]
  {
    if f.name !in args then (if f.optional then [] else [Issue(f.name, Missing)])
    else match args[f.name]
      case NonString => [Issue(f.name, NotAString)]
      case Str(v) => FailedChecks(f.name, f.checks, v, isCidr)
  }

  /** How a shape's acceptance, names and fields split into its first field and the rest. */
  lemma ShapeCons(shape: Shape, args: Arguments, isCidr: CidrParser)
    requires shape != []
    ensures ShapeAccepts(shape, args, isCidr) <==>
      FieldAccepts(shape[0], args, isCidr) && ShapeAccepts(shape[1..], args, isCidr)
    ensures Names(shape) == {shape[0].name} + Names(shape[1..])
    ensures forall i :: 1 <= i < |shape| ==> shape[i] == shape[1..][i - 1]
  {
    assert shape == [shape[0]] + shape[1..];
  }

  /** A missing required field of the shape is reported either by its first field or by the rest. */
  lemma MissingCons(shape: Shape, args: Arguments, isCidr: CidrParser, rest: seq<Issue>)
    requires shape != []
    requires forall i :: 0 <= i < |shape[1..]| && !shape[1..][i].optional && shape[1..][i].name !in args ==>
      Issue(shape[1..][i].name, Missing) in rest
    ensures forall i :: 0 <= i < |shape| && !shape[i].optional && shape[i].name !in args ==>
      Issue(shape[i].name, Missing) in FieldIssues(shape[0], args, isCidr) + rest
  {
    var head := FieldIssues(shape[0], args, isCidr);
    forall i | 0 <= i < |shape| && !shape[i].optional && shape[i].name !in args
      ensures Issue(shape[i].name, Missing) in head + rest
    {
      if i == 0 {
        assert (head + rest)[0] == Issue(shape[0].name, Missing);
      } else {
        assert shape[1..][i - 1] == shape[i];
        assert Issue(shape[i].name, Missing) in rest;
      }
    }
  }

  /** Every issue of every field of the shape, field by field in declaration order. */
  function ShapeIssues(shape: Shape, args: Arguments, isCidr: CidrParser): (r: seq<Issue>)
    ensures r == [] <==> ShapeAccepts(shape, args, isCidr)
    ensures forall j :: 0 <= j < |r| ==> r[j].field in Names(shape)
    ensures forall i :: 0 <= i < |shape| && !shape[i].optional && shape[i].name !in args ==>
      Issue(shape[i].name, Missing) in r
  {
    if shape == [] then []
    else
      var head := FieldIssues(shape[0], args, isCidr);
      var rest := ShapeIssues(shape[1..], args, isCidr);
      ShapeCons(shape, args, isCidr);
      MissingCons(shape, args, isCidr, rest);
      head + rest
  }

  /** The parsed object: the shape's fields that are present as strings; unknown keys are dropped. */
  function Parsed(shape: Shape, args: Arguments): map<string, string> {
    map k | k in args && k in Names(shape) && args[k].Str? :: args[k].s
  }

  /**
   * Validates a parameter object against a shape. On success every field of the
   * shape that the caller supplied is kept with its value, every required field
   * is present, and nothing outside the shape survives.
   */
  function ValidateShape(shape: Shape, args: Arguments, isCidr: CidrParser): (r: Result<map<string, string>, seq<Issue>>)
    ensures r.Ok? <==> ShapeAccepts(shape, args, isCidr)
    ensures r.Ok? ==> r.value.Keys <= Names(shape)
    ensures r.Ok? ==> forall k :: k in r.value ==> k in args && args[k] == Str(r.value[k])
    ensures r.Ok? ==> forall i :: 0 <= i < |shape| && shape[i].name in args ==> shape[i].name in r.value
    ensures r.Ok? ==> forall i :: 0 <= i < |shape| && !shape[i].optional ==> shape[i].name in r.value
    ensures r.Err? ==> r.error != [] && forall j :: 0 <= j < |r.error| ==> r.error[j].field in Names(shape)
  {
    var issues := ShapeIssues(shape, args, isCidr);
    if issues == [] then Ok(Parsed(shape, args)) else Err(issues)
  }

  /** One property of a declared JSON schema: a string, optionally limited to an enum list. */
  datatype PropertySpec = PropertySpec(name: string, allowed: Option<seq<string>>)

  datatype ObjectSchema = ObjectSchema(properties: seq<PropertySpec>, required: seq<string>)

  /** What a declared JSON schema admits; it says nothing about keys it does not list. */
  predicate SchemaAccepts(schema: ObjectSchema, args: Arguments) {
    && (forall k :: k in schema.required ==> k in args)
    && (forall i :: 0 <= i < |schema.properties| && schema.properties[i].name in args ==>
          && args[schema.properties[i].name].Str?
          && (schema.properties[i].allowed.Some? ==>
                args[schema.properties[i].name].s in schema.properties[i].allowed.value))
  }
}
