/** The request bodies of the user routes: onboarding and profile update. */
module UserSchemas {
  import opened Options
  import opened Strings
  import opened Json
  import opened Schema

  /** `/^[6-9]\d{9}$/`: ten digits, the first of them 6 to 9. */
  predicate IsIndianPhone(s: string) {
    |s| == 10 && '6' <= s[0] <= '9' && AllDigits(s)
  }

  /** A regular-expression piece `[lo-hi]{count}`. */
  datatype Piece = Piece(lo: char, hi: char, count: nat)

  /** The phone pattern as written: `[6-9]` once, then `\d` nine times, anchored at both ends. */
  const PHONE_PATTERN: seq<Piece> := [Piece('6', '9', 1), Piece('0', '9', 9)]

  /** `s` matches the anchored concatenation of `p`. */
  predicate MatchesAnchored(p: seq<Piece>, s: string)
    decreases |p|
  {
    if |p| == 0 then s == []
    else
      |s| >= p[0].count
      && (forall i :: 0 <= i < p[0].count ==> p[0].lo <= s[i] <= p[0].hi)
      && MatchesAnchored(p[1..], s[p[0].count..])
  }

  /** The phone predicate means exactly what the regular expression says. */
  lemma PhonePatternMeaning(s: string)
    ensures MatchesAnchored(PHONE_PATTERN, s) <==> IsIndianPhone(s)
  {
    var p := PHONE_PATTERN;
    assert p[1..][1..] == [];
    if |s| >= 1 {
      var rest := s[1..];
      if |rest| >= 9 {
        assert MatchesAnchored(p[1..][1..], rest[9..]) <==> |rest| == 9;
      }
      assert (forall i :: 0 <= i < 9 && i < |rest| ==> '0' <= rest[i] <= '9')
        <==> (forall i :: 1 <= i < 10 && i < |s| ==> '0' <= s[i] <= '9');
    }
  }

  const PHONE_MESSAGE := "Invalid Indian phone number"

  /** `onboardingSchema`'s fields. */
  function OnboardingShape(formats: Formats): seq<Field> {
    [ Field("collegeId", [Satisfies(formats.isCuid, "Invalid college ID")], false, false),
      Field("fullName", [MinLength(2, "Name must be at least 2 characters"), MaxLength(100, MaxMessage(100))], false, false),
      Field("phone", [Satisfies(IsIndianPhone, PHONE_MESSAGE)], true, false) ]
  }

  /** `onboardingSchema.parse(input)` */
  function Onboarding(formats: Formats, input: Json): (r: ParseOutcome)
    ensures !r.Threw?
    ensures r.Parsed? <==>
      && input.JObj?
      && (var f := input.fields;
          && "collegeId" in f && f["collegeId"].JStr? && formats.isCuid(f["collegeId"].s)
          && "fullName" in f && f["fullName"].JStr? && 2 <= Utf16Length(f["fullName"].s) <= 100
          && ("phone" in f ==> f["phone"].JStr? && IsIndianPhone(f["phone"].s)))
    ensures r.Parsed? ==> r.output.JObj? && r.output.fields.Keys == input.fields.Keys * {"collegeId", "fullName", "phone"}
    ensures r.Parsed? ==> forall k :: k in r.output.fields ==> r.output.fields[k] == input.fields[k]
  {
    var shape := OnboardingShape(formats);
    assert Keys(shape) == {"collegeId", "fullName", "phone"} by {
      assert shape[0].key == "collegeId" && shape[1].key == "fullName" && shape[2].key == "phone";
    }
    if input.JObj? then OnboardingShapeMeaning(formats, input); ParseObject(shape, input)
    else ParseObject(shape, input)
  }

  lemma OnboardingShapeMeaning(formats: Formats, input: Json)
    requires input.JObj?
    ensures var f := input.fields;
      AllAccept(OnboardingShape(formats), f) <==>
        && "collegeId" in f && f["collegeId"].JStr? && formats.isCuid(f["collegeId"].s)
        && "fullName" in f && f["fullName"].JStr? && 2 <= Utf16Length(f["fullName"].s) <= 100
        && ("phone" in f ==> f["phone"].JStr? && IsIndianPhone(f["phone"].s))
  {
    var shape := OnboardingShape(formats);
    var f := input.fields;
    AllAcceptThree(shape, f);
    AllPassOne(shape[0].checks[0], if "collegeId" in f && f["collegeId"].JStr? then f["collegeId"].s else "");
    AllPassTwo(shape[1].checks[0], shape[1].checks[1], if "fullName" in f && f["fullName"].JStr? then f["fullName"].s else "");
    AllPassOne(shape[2].checks[0], if "phone" in f && f["phone"].JStr? then f["phone"].s else "");
  }

  /** A body without `collegeId` is refused, and the first issue names that field as "Required". */
  lemma OnboardingMissingCollege(formats: Formats, fields: map<string, Json>)
    requires "collegeId" !in fields
    ensures Onboarding(formats, JObj(fields)).Failed?
    ensures Onboarding(formats, JObj(fields)).issues[0] == Issue([Key("collegeId")], "Required")
  {
    var shape := OnboardingShape(formats);
    assert ObjectIssues(shape, fields) == FieldIssues(shape[0], None) + ObjectIssues(shape[1..], fields);
  }

  /**
   * Name lengths are JavaScript lengths: a single emoji is two code units, so
   * it meets the two-character minimum.
   */
  lemma OnboardingCountsCodeUnits(formats: Formats, collegeId: string)
    requires formats.isCuid(collegeId)
    ensures Onboarding(formats, JObj(map["collegeId" := JStr(collegeId), "fullName" := JStr("\U{1F600}")])).Parsed?
  {
    AstralCountsTwice();
  }

  /** `updateProfileSchema`'s fields: all optional, `phone` and `avatarUrl` also nullable. */
  function UpdateProfileShape(formats: Formats): seq<Field> {
    [ Field("fullName", [MinLength(2, MinMessage(2)), MaxLength(100, MaxMessage(100))], true, false),
      Field("phone", [Satisfies(IsIndianPhone, PHONE_MESSAGE)], true, true),
      Field("avatarUrl", [Satisfies(formats.isUrl, "Invalid url")], true, true) ]
  }

  /** `updateProfileSchema.parse(input)` */
  function UpdateProfile(formats: Formats, input: Json): (r: ParseOutcome)
    ensures !r.Threw?
    ensures r.Parsed? <==>
      && input.JObj?
      && (var f := input.fields;
          && ("fullName" in f ==> f["fullName"].JStr? && 2 <= Utf16Length(f["fullName"].s) <= 100)
          && ("phone" in f ==> f["phone"].JNull? || (f["phone"].JStr? && IsIndianPhone(f["phone"].s)))
          && ("avatarUrl" in f ==> f["avatarUrl"].JNull? || (f["avatarUrl"].JStr? && formats.isUrl(f["avatarUrl"].s))))
    ensures r.Parsed? ==> r.output.JObj? && r.output.fields.Keys == input.fields.Keys * {"fullName", "phone", "avatarUrl"}
    ensures r.Parsed? ==> forall k :: k in r.output.fields ==> r.output.fields[k] == input.fields[k]
  {
    var shape := UpdateProfileShape(formats);
    assert Keys(shape) == {"fullName", "phone", "avatarUrl"} by {
      assert shape[0].key == "fullName" && shape[1].key == "phone" && shape[2].key == "avatarUrl";
    }
    if input.JObj? then UpdateProfileShapeMeaning(formats, input); ParseObject(shape, input)
    else ParseObject(shape, input)
  }

  lemma UpdateProfileShapeMeaning(formats: Formats, input: Json)
    requires input.JObj?
    ensures var f := input.fields;
      AllAccept(UpdateProfileShape(formats), f) <==>
        && ("fullName" in f ==> f["fullName"].JStr? && 2 <= Utf16Length(f["fullName"].s) <= 100)
        && ("phone" in f ==> f["phone"].JNull? || (f["phone"].JStr? && IsIndianPhone(f["phone"].s)))
        && ("avatarUrl" in f ==> f["avatarUrl"].JNull? || (f["avatarUrl"].JStr? && formats.isUrl(f["avatarUrl"].s)))
  {
    var shape := UpdateProfileShape(formats);
    var f := input.fields;
    AllAcceptThree(shape, f);
    AllPassTwo(shape[0].checks[0], shape[0].checks[1], if "fullName" in f && f["fullName"].JStr? then f["fullName"].s else "");
    AllPassOne(shape[1].checks[0], if "phone" in f && f["phone"].JStr? then f["phone"].s else "");
    AllPassOne(shape[2].checks[0], if "avatarUrl" in f && f["avatarUrl"].JStr? then f["avatarUrl"].s else "");
  }

  /** Every profile field is optional: the empty object is a valid update that changes nothing. */
  lemma EmptyProfileUpdate(formats: Formats)
    ensures UpdateProfile(formats, JObj(map[])) == Parsed(JObj(map[]))
  {
  }
}
