/**
 * The validation middleware: parse the body (or the query) with a schema;
 * on success replace it with the parsed value and continue; on a schema
 * failure answer 400 `VALIDATION_ERROR` with one `{ field, message }` per
 * issue; hand any other error to the error handler.
 */
module Validate {
  import opened Options
  import opened Strings
  import opened Json
  import opened Http
  import opened Schema

  function SegmentText(seg: PathSegment): string {
    match seg
    case Key(name) => name
    case Index(i) => NatToString(i)
  }

  function SegmentTexts(path: seq<PathSegment>): (r: seq<string>)
    ensures |r| == |path| && forall k :: 0 <= k < |path| ==> r[k] == SegmentText(path[k])
  {
    seq(|path|, k requires 0 <= k < |path| => SegmentText(path[k]))
  }

  /** `issue.path.join(".")` */
  function FieldPath(path: seq<PathSegment>): string {
    Join(SegmentTexts(path), ".")
  }

  /** The segments' texts plus one "." between neighbours, and nothing else. */
  lemma FieldPathLength(path: seq<PathSegment>)
    requires |path| >= 1
    ensures |FieldPath(path)| == TotalLength(SegmentTexts(path)) + |path| - 1
  {
    JoinLength(SegmentTexts(path), ".");
  }

  /** A one-key path is that key itself. */
  lemma FieldPathSingleKey(name: string)
    ensures FieldPath([Key(name)]) == name
  {
  }

  /** `issues.map(e => ({ field: e.path.join("."), message: e.message }))` */
  function Details(issues: seq<Issue>): (d: seq<FieldError>)
    ensures |d| == |issues|
    ensures forall k :: 0 <= k < |issues| ==>
      d[k].field == FieldPath(issues[k].path) && d[k].message == issues[k].message
  {
    if |issues| == 0 then []
    else [FieldError(FieldPath(issues[0].path), issues[0].message)] + Details(issues[1..])
  }

  /** What the middleware does with a parse outcome; `error` is the text of the 400 answer. */
  function Decide(result: ParseOutcome, error: string): (o: Outcome)
    ensures o.Continue? <==> result.Parsed?
    ensures result.Failed? ==>
              o.Respond? && o.response.status == 400
              && o.response.body == ErrorBody(error, Some(VALIDATION_ERROR), Some(Details(result.issues)))
    ensures result.Threw? ==> o == Forward(result.failure)
  {
    match result
    case Parsed(_) => Continue
    case Failed(issues) => Respond(Response(400, ErrorBody(error, Some(VALIDATION_ERROR), Some(Details(issues)))))
    case Threw(f) => Forward(f)
  }

  const BODY_ERROR := "Validation failed"
  const QUERY_ERROR := "Invalid query parameters"

  /** `validate(schema)`: on success `req.body` becomes the parsed value. */
  method ValidateBody(schema: Json -> ParseOutcome, req: RequestContext) returns (o: Outcome)
    modifies req
    ensures o == Decide(schema(old(req.body)), BODY_ERROR)
    ensures req.body == (if o.Continue? then schema(old(req.body)).output else old(req.body))
    ensures req.query == old(req.query) && req.user == old(req.user)
  {
    var result := schema(req.body);
    match result
    case Parsed(out) =>
      req.body := out;
      o := Continue;
    case Failed(issues) =>
      o := Decide(result, BODY_ERROR);
    case Threw(f) =>
      o := Forward(f);
  }

  /** `validateQuery(schema)`: the same on `req.query`. */
  method ValidateQuery(schema: Json -> ParseOutcome, req: RequestContext) returns (o: Outcome)
    modifies req
    ensures o == Decide(schema(old(req.query)), QUERY_ERROR)
    ensures req.query == (if o.Continue? then schema(old(req.query)).output else old(req.query))
    ensures req.body == old(req.body) && req.user == old(req.user)
  {
    var result := schema(req.query);
    match result
    case Parsed(out) =>
      req.query := out;
      o := Continue;
    case Failed(issues) =>
      o := Decide(result, QUERY_ERROR);
    case Threw(f) =>
      o := Forward(f);
  }
}
