/**
 * Validation of a job-creation request: the field rules of the create
 * serializer (required, stripped, non-blank text with length limits and
 * no NUL characters; a list of tags held to the same text rules; a dictionary of accessibility flags; coordinates
 * and optional shift times with defaults), followed by its object-level
 * check that a shift ends after it starts. Field errors are collected for
 * every field; the object-level check runs only when every field passed.
 * Times are seconds since the epoch.
 */
module JobSerializers {
  import opened Wrappers
  import opened Text
  import opened JsonValue

  const TITLE_MAX_LENGTH: nat := 255
  const SHORT_DESCRIPTION_MAX_LENGTH: nat := 200

  /** The keys of the error report: the fields that are validated, and the object as a whole. */
  datatype JobField = Title | Description | ShortDescription | SkillTags | AccessibilityFlags | NonField

  /** The key under which the error report names each field. */
  function FieldName(f: JobField): string {
    match f
    case Title => "title"
    case Description => "description"
    case ShortDescription => "short_description"
    case SkillTags => "skill_tags"
    case AccessibilityFlags => "accessibility_flags"
    case NonField => "non_field_errors"
  }

  /** The fields of a create request; `None` for a field the request leaves out, or sends as null for a shift time. */
  datatype JobCreateRequest = JobCreateRequest(
    title: Option<string>,
    description: Option<string>,
    shortDescription: Option<string>,
    skillTags: Option<seq<string>>,
    accessibilityFlags: Option<Json>,
    latitude: Option<real>,
    longitude: Option<real>,
    shiftStart: Option<int>,
    shiftEnd: Option<int>)

  /** The validated data. */
  datatype JobCreateData = JobCreateData(
    title: string,
    description: string,
    shortDescription: string,
    skillTags: seq<string>,
    accessibilityFlags: Json,
    latitude: real,
    longitude: real,
    shiftStart: Option<int>,
    shiftEnd: Option<int>)

  /** Why one field, or the object as a whole, was refused. */
  datatype FieldIssue =
    | Required
    | Refused(reason: FieldError)
    | TagsRefused(indices: set<nat>)
    | NotADictionary
    | ShiftEndNotAfterStart

  /** A required text field. */
  function RequiredText(raw: Option<string>, maxLength: Option<nat>): (r: Result<string, FieldIssue>)
    ensures raw.None? ==> r == Failure(Required)
    ensures raw.Some? ==> (r.Success? <==> CharField(raw.value, maxLength).Success?)
    ensures r.Success? ==> r.value == Strip(raw.value) && r.value != []
    ensures r.Success? && maxLength.Some? ==> |r.value| <= maxLength.value
  {
    if raw.None? then Failure(Required)
    else match CharField(raw.value, maxLength)
      case Success(v) => Success(v)
      case Failure(e) => Failure(Refused(e))
  }

  /** The positions of the tags the list's `CharField` child refuses. */
  function RefusedTags(tags: seq<string>): set<nat> {
    set i: nat | i < |tags| && CharField(tags[i], None).Failure?
  }

  /** The optional tag list: absent means empty; every tag must pass the text rules, and is stripped. */
  function ValidateSkillTags(raw: Option<seq<string>>): (r: Result<seq<string>, FieldIssue>)
    ensures raw.None? ==> r == Success([])
    ensures raw.Some? ==> (r.Success? <==> forall i :: 0 <= i < |raw.value| ==> CharField(raw.value[i], None).Success?)
    ensures r.Success? && raw.Some? ==>
      |r.value| == |raw.value| && forall i :: 0 <= i < |r.value| ==> r.value[i] == Strip(raw.value[i]) && r.value[i] != []
  {
    if raw.None? then Success([])
    else if forall i :: 0 <= i < |raw.value| ==> CharField(raw.value[i], None).Success? then
      Success(seq(|raw.value|, i requires 0 <= i < |raw.value| => Strip(raw.value[i])))
    else Failure(TagsRefused(RefusedTags(raw.value)))
  }

  /** The optional flag dictionary: absent means `{}`; anything but an object is refused. */
  function ValidateAccessibilityFlags(raw: Option<Json>): (r: Result<Json, FieldIssue>)
    ensures raw.None? ==> r == Success(JObject([]))
    ensures raw.Some? ==> (r.Success? <==> raw.value.JObject?)
    ensures r.Success? ==> r.value.JObject? && (raw.Some? ==> r.value == raw.value)
  {
    if raw.None? then Success(JObject([]))
    else if raw.value.JObject? then Success(raw.value)
    else Failure(NotADictionary)
  }

  function IssueOf<T>(r: Result<T, FieldIssue>): Option<FieldIssue> {
    if r.Failure? then Some(r.error) else None
  }

  /** The error one field of the request draws, if any. */
  function Issue(req: JobCreateRequest, f: JobField): Option<FieldIssue> {
    match f
    case Title => IssueOf(RequiredText(req.title, Some(TITLE_MAX_LENGTH)))
    case Description => IssueOf(RequiredText(req.description, None))
    case ShortDescription => IssueOf(RequiredText(req.shortDescription, Some(SHORT_DESCRIPTION_MAX_LENGTH)))
    case SkillTags => IssueOf(ValidateSkillTags(req.skillTags))
    case AccessibilityFlags => IssueOf(ValidateAccessibilityFlags(req.accessibilityFlags))
    case NonField => None
  }

  const VALIDATED_FIELDS: set<JobField> := {Title, Description, ShortDescription, SkillTags, AccessibilityFlags}

  /** The per-field errors of a request, keyed by field. */
  function FieldIssues(req: JobCreateRequest): map<JobField, FieldIssue> {
    map f | f in VALIDATED_FIELDS && Issue(req, f).Some? :: Issue(req, f).value
  }

  /** A field is reported exactly when it draws an error, and with that error. */
  lemma IssueAt(req: JobCreateRequest, f: JobField)
    ensures f in FieldIssues(req) <==> f != NonField && Issue(req, f).Some?
    ensures f in FieldIssues(req) ==> FieldIssues(req)[f] == Issue(req, f).value
  {
  }

  /**
   * A text field is reported when it is missing or fails its CharField
   * rule; a present, non-blank title with the messages of its failing validators.
   */
  lemma TextFieldsReported(req: JobCreateRequest)
    ensures Title in FieldIssues(req) <==> req.title.None? || CharField(req.title.value, Some(TITLE_MAX_LENGTH)).Failure?
    ensures Description in FieldIssues(req) <==> req.description.None? || CharField(req.description.value, None).Failure?
    ensures ShortDescription in FieldIssues(req) <==>
      req.shortDescription.None? || CharField(req.shortDescription.value, Some(SHORT_DESCRIPTION_MAX_LENGTH)).Failure?
    ensures Title in FieldIssues(req) && req.title.Some? && !IsBlank(req.title.value) ==>
      FieldIssues(req)[Title] == Refused(ValidatorsFailed(ValidatorErrors(Strip(req.title.value), Some(TITLE_MAX_LENGTH))))
  {
    IssueAt(req, Title);
    IssueAt(req, Description);
    IssueAt(req, ShortDescription);
  }

  /** The tag list is reported iff some tag fails the text rules, with the positions of those tags. */
  lemma TagsReported(req: JobCreateRequest)
    ensures SkillTags in FieldIssues(req) <==>
      req.skillTags.Some? && exists i :: 0 <= i < |req.skillTags.value| && CharField(req.skillTags.value[i], None).Failure?
    ensures SkillTags in FieldIssues(req) ==> FieldIssues(req)[SkillTags] == TagsRefused(RefusedTags(req.skillTags.value))
  {
    IssueAt(req, SkillTags);
  }

  /** The flags are reported iff they are sent and are not a dictionary; the object-level key is never among the field errors. */
  lemma FlagsReported(req: JobCreateRequest)
    ensures AccessibilityFlags in FieldIssues(req) <==>
      req.accessibilityFlags.Some? && !req.accessibilityFlags.value.JObject?
    ensures NonField !in FieldIssues(req)
  {
    IssueAt(req, AccessibilityFlags);
    IssueAt(req, NonField);
  }

  /** The object-level check: it refuses only when both times are present and the end is not after the start. */
  function ValidateShifts(data: JobCreateData): (r: Result<JobCreateData, FieldIssue>)
    ensures r.Failure? <==> data.shiftStart.Some? && data.shiftEnd.Some? && data.shiftEnd.value <= data.shiftStart.value
    ensures r.Success? ==> r.value == data
  {
    if data.shiftStart.Some? && data.shiftEnd.Some? && data.shiftEnd.value <= data.shiftStart.value then
      Failure(ShiftEndNotAfterStart)
    else Success(data)
  }

  /** A request without field errors passes each field's own rule. */
  lemma NoIssuesMeansFieldsPass(req: JobCreateRequest)
    requires FieldIssues(req) == map[]
    ensures RequiredText(req.title, Some(TITLE_MAX_LENGTH)).Success?
    ensures RequiredText(req.description, None).Success?
    ensures RequiredText(req.shortDescription, Some(SHORT_DESCRIPTION_MAX_LENGTH)).Success?
    ensures ValidateSkillTags(req.skillTags).Success? && ValidateAccessibilityFlags(req.accessibilityFlags).Success?
  {
    IssueAt(req, Title);
    IssueAt(req, Description);
    IssueAt(req, ShortDescription);
    IssueAt(req, SkillTags);
    IssueAt(req, AccessibilityFlags);
  }

  /** The cleaned field values of a request whose every field passed. */
  function CleanData(req: JobCreateRequest): (d: JobCreateData)
    requires FieldIssues(req) == map[]
    ensures d.shiftStart == req.shiftStart && d.shiftEnd == req.shiftEnd
  {
    NoIssuesMeansFieldsPass(req);
    JobCreateData(
      RequiredText(req.title, Some(TITLE_MAX_LENGTH)).value,
      RequiredText(req.description, None).value,
      RequiredText(req.shortDescription, Some(SHORT_DESCRIPTION_MAX_LENGTH)).value,
      ValidateSkillTags(req.skillTags).value,
      ValidateAccessibilityFlags(req.accessibilityFlags).value,
      if req.latitude.Some? then req.latitude.value else 0.0,
      if req.longitude.Some? then req.longitude.value else 0.0,
      req.shiftStart, req.shiftEnd)
  }

  /** The cleaned text fields are the stripped values, non-empty and within their limits. */
  lemma CleanTextFields(req: JobCreateRequest)
    requires FieldIssues(req) == map[]
    ensures var d := CleanData(req);
      && req.title.Some? && d.title == Strip(req.title.value) && d.title != [] && |d.title| <= TITLE_MAX_LENGTH
      && req.description.Some? && d.description == Strip(req.description.value) && d.description != []
      && req.shortDescription.Some? && d.shortDescription == Strip(req.shortDescription.value)
      && d.shortDescription != [] && |d.shortDescription| <= SHORT_DESCRIPTION_MAX_LENGTH
  {
    NoIssuesMeansFieldsPass(req);
  }

  /** Omitted tags, flags and coordinates take their defaults; sent ones are the cleaned values. */
  lemma CleanOptionalFields(req: JobCreateRequest)
    requires FieldIssues(req) == map[]
    ensures var d := CleanData(req);
      && (req.skillTags.None? ==> d.skillTags == [])
      && (req.skillTags.Some? ==>
            && |d.skillTags| == |req.skillTags.value|
            && forall i :: 0 <= i < |d.skillTags| ==> d.skillTags[i] == Strip(req.skillTags.value[i]) && d.skillTags[i] != [])
      && d.accessibilityFlags.JObject?
      && (req.accessibilityFlags.None? ==> d.accessibilityFlags == JObject([]))
      && (req.accessibilityFlags.Some? ==> d.accessibilityFlags == req.accessibilityFlags.value)
      && (req.latitude.None? ==> d.latitude == 0.0) && (req.latitude.Some? ==> d.latitude == req.latitude.value)
      && (req.longitude.None? ==> d.longitude == 0.0) && (req.longitude.Some? ==> d.longitude == req.longitude.value)
  {
    NoIssuesMeansFieldsPass(req);
  }

  /** The whole create serializer: field validation, then the object-level check. */
  function ValidateJobCreate(req: JobCreateRequest): (r: Result<JobCreateData, map<JobField, FieldIssue>>)
    ensures FieldIssues(req) != map[] ==> r == Failure(FieldIssues(req))
    ensures FieldIssues(req) == map[] && req.shiftStart.Some? && req.shiftEnd.Some? && req.shiftEnd.value <= req.shiftStart.value ==>
      r == Failure(map[NonField := ShiftEndNotAfterStart])
    ensures r.Success? <==> FieldIssues(req) == map[] && !(req.shiftStart.Some? && req.shiftEnd.Some? && req.shiftEnd.value <= req.shiftStart.value)
  {
    if FieldIssues(req) != map[] then Failure(FieldIssues(req))
    else match ValidateShifts(CleanData(req))
      case Success(d) => Success(d)
      case Failure(e) => Failure(map[NonField := e])
  }

  /**
   * Validated data is the cleaned request, unchanged by the object-level
   * check, and a shift given with both times ends after it starts.
   */
  lemma ValidatedJobCreate(req: JobCreateRequest)
    requires ValidateJobCreate(req).Success?
    ensures FieldIssues(req) == map[] && ValidateJobCreate(req).value == CleanData(req)
    ensures var d := ValidateJobCreate(req).value;
      d.shiftStart.Some? && d.shiftEnd.Some? ==> d.shiftStart.value < d.shiftEnd.value
  {
  }

  /** Without both shift times the object-level check passes the data through untouched. */
  lemma MissingShiftSkipsOrderCheck(req: JobCreateRequest)
    requires FieldIssues(req) == map[] && (req.shiftStart.None? || req.shiftEnd.None?)
    ensures ValidateJobCreate(req) == Success(CleanData(req))
  {
  }
}
