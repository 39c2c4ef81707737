/**
 * Declarative request schemas in the manner of zod: an object schema is a
 * list of string fields, each optional or required, nullable or not, with
 * checks run in order. Parsing yields the cleaned object (unknown keys
 * dropped) or the list of issues, one per failed check, in field order.
 * The messages are zod's defaults unless a schema gives its own.
 */
module Schema {
  import opened Options
  import opened Strings
  import opened Json
  import opened Http

  /** One element of an issue's path: an object key or an array index. */
  datatype PathSegment = Key(name: string) | Index(i: nat)

  datatype Issue = Issue(path: seq<PathSegment>, message: string)

  /** What `schema.parse(input)` does: returns the output, throws a `ZodError`, or throws something else. */
  datatype ParseOutcome = Parsed(output: Json) | Failed(issues: seq<Issue>) | Threw(failure: Failure)

  /** zod's `invalid_type` message; a missing value is reported as "Required". */
  function TypeMessage(expected: string, received: Option<Json>): string {
    if received.None? then "Required" else "Expected " + expected + ", received " + TypeName(received.value)
  }

  /** zod's built-in string formats, which this model leaves uninterpreted. */
  datatype Formats = Formats(isCuid: string -> bool, isUrl: string -> bool)

  /** A check on a string value that passed the type check. */
  datatype StringCheck =
    | MinLength(bound: nat, message: string)
    | MaxLength(bound: nat, message: string)
    | Satisfies(test: string -> bool, message: string)   // `.regex`, `.cuid`, `.url`

  function MinMessage(n: nat): string {
    "String must contain at least " + NatToString(n) + " character(s)"
  }

  function MaxMessage(n: nat): string {
    "String must contain at most " + NatToString(n) + " character(s)"
  }

  /** `.min(n)` and `.max(n)` compare JavaScript's `length`, in UTF-16 code units. */
  predicate Passes(c: StringCheck, s: string) {
    match c
    case MinLength(n, _) => Utf16Length(s) >= n
    case MaxLength(n, _) => Utf16Length(s) <= n
    case Satisfies(test, _) => test(s)
  }

  /** `s` passes every check. */
  predicate AllPass(checks: seq<StringCheck>, s: string) {
    |checks| == 0 || (Passes(checks[0], s) && AllPass(checks[1..], s))
  }

  /** The issues of the checks `s` fails, in check order. */
  function CheckIssues(checks: seq<StringCheck>, path: seq<PathSegment>, s: string): (r: seq<Issue>)
    ensures r == [] <==> AllPass(checks, s)
    ensures forall k :: 0 <= k < |r| ==> r[k].path == path
  {
    if |checks| == 0 then []
    else
      (if Passes(checks[0], s) then [] else [Issue(path, checks[0].message)])
      + CheckIssues(checks[1..], path, s)
  }

  /** A string field of an object schema: `z.string()...` with `.optional()` and `.nullable()`. */
  datatype Field = Field(key: string, checks: seq<StringCheck>, optional: bool, nullable: bool)

  /** The value of `field` is acceptable (a missing value is `None`). */
  predicate FieldAccepts(f: Field, v: Option<Json>) {
    match v
    case None => f.optional
    case Some(JNull) => f.nullable
    case Some(JStr(s)) => AllPass(f.checks, s)
    case Some(_) => false
  }

  function FieldIssues(f: Field, v: Option<Json>): (r: seq<Issue>)
    ensures r == [] <==> FieldAccepts(f, v)
    ensures forall k :: 0 <= k < |r| ==> r[k].path == [Key(f.key)]
  {
    match v
    case None => if f.optional then [] else [Issue([Key(f.key)], TypeMessage("string", None))]
    case Some(JNull) => if f.nullable then [] else [Issue([Key(f.key)], TypeMessage("string", v))]
    case Some(JStr(s)) => CheckIssues(f.checks, [Key(f.key)], s)
    case Some(_) => [Issue([Key(f.key)], TypeMessage("string", v))]
  }

  function Lookup(fields: map<string, Json>, key: string): Option<Json> {
    if key in fields then Some(fields[key]) else None
  }

  /** Every field of the shape accepts the input's value for its key. */
  predicate AllAccept(shape: seq<Field>, fields: map<string, Json>) {
    |shape| == 0 || (FieldAccepts(shape[0], Lookup(fields, shape[0].key)) && AllAccept(shape[1..], fields))
  }

  lemma AllAcceptThree(shape: seq<Field>, fields: map<string, Json>)
    requires |shape| == 3
    ensures AllAccept(shape, fields) <==>
      && FieldAccepts(shape[0], Lookup(fields, shape[0].key))
      && FieldAccepts(shape[1], Lookup(fields, shape[1].key))
      && FieldAccepts(shape[2], Lookup(fields, shape[2].key))
  {
    var rest := shape[1..];
    assert rest[0] == shape[1] && rest[1..][0] == shape[2] && rest[1..][1..] == [];
    assert AllAccept(rest[1..][1..], fields);
    assert AllAccept(shape, fields) == (FieldAccepts(shape[0], Lookup(fields, shape[0].key)) && AllAccept(rest, fields));
    assert AllAccept(rest, fields) == (FieldAccepts(shape[1], Lookup(fields, shape[1].key)) && AllAccept(rest[1..], fields));
  }

  lemma AllPassOne(c: StringCheck, s: string)
    ensures AllPass([c], s) <==> Passes(c, s)
  {
    assert [c][1..] == [];
  }

  lemma AllPassTwo(c: StringCheck, d: StringCheck, s: string)
    ensures AllPass([c, d], s) <==> Passes(c, s) && Passes(d, s)
  {
    assert [c, d][1..] == [d];
    AllPassOne(d, s);
  }

  function ObjectIssues(shape: seq<Field>, fields: map<string, Json>): (r: seq<Issue>)
    ensures r == [] <==> AllAccept(shape, fields)
  {
    if |shape| == 0 then []
    else FieldIssues(shape[0], Lookup(fields, shape[0].key)) + ObjectIssues(shape[1..], fields)
  }

  function Keys(shape: seq<Field>): set<string> {
    set k | 0 <= k < |shape| :: shape[k].key
  }

  /** The parsed object: the shape's keys that the input has, with their values; other keys are dropped. */
  function Strip(shape: seq<Field>, fields: map<string, Json>): (r: map<string, Json>)
    ensures r.Keys == fields.Keys * Keys(shape)
    ensures forall key :: key in r ==> r[key] == fields[key]
  {
    map key | key in fields && key in Keys(shape) :: fields[key]
  }

  /** `z.object(shape).parse(input)` for a shape of string fields. */
  function ParseObject(shape: seq<Field>, input: Json): (r: ParseOutcome)
    ensures !r.Threw?
    ensures r.Parsed? <==> input.JObj? && AllAccept(shape, input.fields)
    ensures r.Parsed? ==> r.output == JObj(Strip(shape, input.fields))
    ensures r.Failed? ==> |r.issues| > 0
  {
    if !input.JObj? then Failed([Issue([], TypeMessage("object", Some(input)))])
    else
      var issues := ObjectIssues(shape, input.fields);
      if issues == [] then Parsed(JObj(Strip(shape, input.fields))) else Failed(issues)
  }

  /** `z.string()` with `checks`, on a bare value. */
  function ParseString(checks: seq<StringCheck>, input: Json): (r: ParseOutcome)
    ensures !r.Threw?
    ensures r.Parsed? <==> input.JStr? && AllPass(checks, input.s)
    ensures r.Parsed? ==> r.output == input
  {
    if !input.JStr? then Failed([Issue([], TypeMessage("string", Some(input)))])
    else
      var issues := CheckIssues(checks, [], input.s);
      if issues == [] then Parsed(input) else Failed(issues)
  }
}
