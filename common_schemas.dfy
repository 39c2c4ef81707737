/** Schemas shared by several endpoints: ids and cursor pagination. */
module CommonSchemas {
  import opened Options
  import opened Strings
  import opened Json
  import opened Schema

  /** `cuidSchema`: a string that passes the cuid format. */
  function Cuid(formats: Formats, input: Json): (r: ParseOutcome)
    ensures r.Parsed? <==> input.JStr? && formats.isCuid(input.s)
    ensures r.Parsed? ==> r.output == input
  {
    ParseString([Satisfies(formats.isCuid, "Invalid cuid")], input)
  }

  /** `idParamSchema`: an object whose `id` passes the cuid format. */
  function IdParam(formats: Formats, input: Json): (r: ParseOutcome)
    ensures r.Parsed? <==>
      input.JObj? && "id" in input.fields && input.fields["id"].JStr? && formats.isCuid(input.fields["id"].s)
  {
    var shape := [Field("id", [Satisfies(formats.isCuid, "Invalid cuid")], false, false)];
    ParseObject(shape, input)
  }

  /**
   * `Number(s)` for the empty string (0) and for strings of decimal digits;
   * `None` stands for every other string, which this model reads as NaN.
   */
  function NumberOf(s: string): (r: Option<nat>)
    ensures r.Some? <==> AllDigits(s)
    ensures r.Some? ==> r.value == ParseNat(s)
  {
    if AllDigits(s) then Some(ParseNat(s)) else None
  }

  /** The issues of `limit: z.string().transform(Number).pipe(z.number().int().min(1).max(50)).optional()`. */
  function LimitIssues(v: Option<Json>): (r: seq<Issue>)
    ensures r == [] <==> v.None? || (v.value.JStr? && NumberOf(v.value.s).Some? && 1 <= NumberOf(v.value.s).value <= 50)
  {
    match v
    case None => []
    case Some(JStr(s)) =>
      (match NumberOf(s)
       case None => [Issue([Key("limit")], "Expected number, received nan")]
       case Some(n) =>
         if n < 1 then [Issue([Key("limit")], "Number must be greater than or equal to 1")]
         else if n > 50 then [Issue([Key("limit")], "Number must be less than or equal to 50")]
         else [])
    case Some(other) => [Issue([Key("limit")], TypeMessage("string", v))]
  }

  /** `paginationSchema.parse(input)`: `cursor` any string, `limit` a decimal text for 1 to 50, both optional. */
  function Pagination(input: Json): (r: ParseOutcome)
    ensures !r.Threw?
    ensures r.Parsed? <==>
      && input.JObj?
      && ("cursor" in input.fields ==> input.fields["cursor"].JStr?)
      && ("limit" in input.fields ==>
            input.fields["limit"].JStr? && AllDigits(input.fields["limit"].s)
            && 1 <= ParseNat(input.fields["limit"].s) <= 50)
    ensures r.Parsed? ==>
      && r.output.JObj?
      && ("limit" in r.output.fields <==> "limit" in input.fields)
      && ("limit" in input.fields ==> r.output.fields["limit"] == JNum(ParseNat(input.fields["limit"].s)))
      && ("cursor" in r.output.fields <==> "cursor" in input.fields)
      && ("cursor" in input.fields ==> r.output.fields["cursor"] == input.fields["cursor"])
  {
    if !input.JObj? then Failed([Issue([], TypeMessage("object", Some(input)))])
    else
      var f := input.fields;
      var cursor := Field("cursor", [], true, false);
      var issues := FieldIssues(cursor, Lookup(f, "cursor")) + LimitIssues(Lookup(f, "limit"));
      if issues != [] then Failed(issues)
      else
        var out := map k | k in f && k == "cursor" :: f[k];
        Parsed(JObj(if "limit" in f then out["limit" := JNum(ParseNat(f["limit"].s))] else out))
  }

  /** The bounds are inclusive: "1" and "50" pass, "0" and "51" do not; both fields may be absent. */
  lemma PaginationBounds()
    ensures Pagination(JObj(map["limit" := JStr("1")])) == Parsed(JObj(map["limit" := JNum(1)]))
    ensures Pagination(JObj(map["limit" := JStr("50")])) == Parsed(JObj(map["limit" := JNum(50)]))
    ensures Pagination(JObj(map["limit" := JStr("0")])).Failed?
    ensures Pagination(JObj(map["limit" := JStr("51")])).Failed?
    ensures Pagination(JObj(map[])) == Parsed(JObj(map[]))
  {
    assert ParseNat("1") == 1;
    assert ParseNat("50") == 50 by { assert "50"[..1] == "5"; }
    assert ParseNat("51") == 51 by { assert "51"[..1] == "5"; }
  }

  /** The decimal text of any limit from 1 to 50 (as `String(n)` writes it) reads back as that number. */
  lemma PaginationReadsEveryLimit(n: nat, cursor: string)
    requires 1 <= n <= 50
    ensures var r := Pagination(JObj(map["limit" := JStr(NatToString(n)), "cursor" := JStr(cursor)]));
      && r.Parsed?
      && r.output == JObj(map["limit" := JNum(n), "cursor" := JStr(cursor)])
  {
    ParseNatToString(n);
    var r := Pagination(JObj(map["limit" := JStr(NatToString(n)), "cursor" := JStr(cursor)]));
    assert r.output.fields.Keys == {"limit", "cursor"};
  }
}
