/** backend/middleware/validate.js: run a schema over a request, pass it on when
    it parses, and turn a zod failure into one 400 AppError message. */
module ValidateMiddleware {
  import opened Common
  import opened WorkLogSchema

  /** An element of the array `JSON.parse(err.message)` yields; its `path` is
      absent when not an array. */
  datatype RawIssue = RawIssue(path: Option<seq<string>>, message: string)

  /** What `JSON.parse(err.message)` gives: an array, another value, or a throw. */
  datatype ParsedMessage = IssueArray(items: seq<RawIssue>) | NotAnArray | Unparseable

  /** What `schema.parse` threw. */
  datatype Thrown =
    | ZodFailure(errors: Option<seq<Issue>>, message: string, parsed: ParsedMessage)
    | OtherError

  /** The three ways the middleware hands on: `next()`, `next(new AppError(message, status))`,
      `next(err)`. */
  datatype Outcome = Next | NextWithAppError(message: string, status: nat) | NextWithError

  const ValidationFailed := "Validation failed. "

  /** `${e.path.join('.')}: ${e.message}`. */
  function FormatIssue(i: Issue): string {
    Join(i.path, ".") + ": " + i.message
  }

  function FormatIssues(issues: seq<Issue>): (r: seq<string>)
    ensures |r| == |issues| && forall k :: 0 <= k < |r| ==> r[k] == FormatIssue(issues[k])
  {
    seq(|issues|, k requires 0 <= k < |issues| => FormatIssue(issues[k]))
  }

  /** The fallback's formatting: a missing path reads "field". */
  function FormatRaw(i: RawIssue): string {
    (if i.path.Some? then Join(i.path.value, ".") else "field") + ": " + i.message
  }

  function FormatRaws(items: seq<RawIssue>): (r: seq<string>)
    ensures |r| == |items| && forall k :: 0 <= k < |r| ==> r[k] == FormatRaw(items[k])
  {
    seq(|items|, k requires 0 <= k < |items| => FormatRaw(items[k]))
  }

  /** `errorMessages` for a ZodError. */
  function ErrorMessages(errors: Option<seq<Issue>>, message: string, parsed: ParsedMessage): seq<string>
  {
    if errors.Some? then FormatIssues(errors.value)
    else match parsed
      case IssueArray(items) => FormatRaws(items)
      case _ => [message]
  }

  /** The middleware, given what `schema.parse` did (`None`: it returned). */
  function Validate(thrown: Option<Thrown>): Outcome
  {
    match thrown
    case None => Next
    case Some(OtherError) => NextWithError
    case Some(ZodFailure(errors, message, parsed)) =>
      NextWithAppError(ValidationFailed + Join(ErrorMessages(errors, message, parsed), ", "), 400)
  }

  /** A ZodError without `errors` whose message is not a JSON array is reported
      with its message verbatim. */
  lemma FallbackVerbatim(message: string)
    ensures Validate(Some(ZodFailure(None, message, NotAnArray))) == NextWithAppError(ValidationFailed + message, 400)
    ensures Validate(Some(ZodFailure(None, message, Unparseable))) == NextWithAppError(ValidationFailed + message, 400)
  {
  }

  /** Any other error is handed to `next(err)` untouched: no validation reply. */
  lemma ForwardsOtherErrors()
    ensures Validate(Some(OtherError)) == NextWithError
    ensures forall t :: Validate(Some(t)) == NextWithError <==> t == OtherError
  {
  }

  /** Both ways of reading a ZodError give the same message when the serialised
      issues carry the same paths and messages. */
  lemma FallbackAgrees(issues: seq<Issue>, message: string)
    ensures var items := seq(|issues|, k requires 0 <= k < |issues| => RawIssue(Some(issues[k].path), issues[k].message));
      Validate(Some(ZodFailure(Some(issues), message, Unparseable))) ==
      Validate(Some(ZodFailure(None, message, IssueArray(items))))
  {
    var items := seq(|issues|, k requires 0 <= k < |issues| => RawIssue(Some(issues[k].path), issues[k].message));
    assert FormatIssues(issues) == FormatRaws(items);
  }

  /** How zod 3's `parse` ends for a schema's issue list: it returns, or throws a
      ZodError carrying the issues both as `errors` and serialised in `message`. */
  function Parse(issues: seq<Issue>, message: string): Option<Thrown>
  {
    if issues == [] then None else Some(ZodFailure(Some(issues), message, Unparseable))
  }

  /** `validate(schema)` on a request whose schema found `issues`: the request
      goes on exactly when there are none, and otherwise one 400 lists each
      issue as "path: message", comma separated. */
  lemma ValidateSpec(issues: seq<Issue>, message: string)
    ensures Validate(Parse(issues, message)) == Next <==> issues == []
    ensures issues != [] ==>
      Validate(Parse(issues, message)) == NextWithAppError(ValidationFailed + Join(FormatIssues(issues), ", "), 400)
  {
  }

  /** POST /worklogs reaches the handler exactly when the body carries a
      date-shaped `date` and a non-empty `content`. */
  lemma CreateLogGate(req: Request, message: string)
    ensures Validate(Parse(CreateLogIssues(req), message)) == Next <==> AcceptsCreateLog(req)
  {
    CreateLogSpec(req);
  }

  /** A GET /worklogs/range query reaches `getLogsByRange` exactly when the
      query fields are well formed and `from` and `to` come together. */
  lemma DateRangeGate(req: Request, message: string)
    ensures Validate(Parse(DateRangeIssues(req), message)) == Next <==> AcceptsDateRange(req)
  {
    DateRangeSpec(req);
  }

  lemma UpdateTaskGate(req: Request, message: string)
    ensures Validate(Parse(UpdateTaskIssues(req), message)) == Next <==> AcceptsUpdateTask(req)
  {
    UpdateTaskSpec(req);
  }

  lemma AiSummaryGate(req: Request, message: string)
    ensures Validate(Parse(AiSummaryIssues(req), message)) == Next <==> AcceptsAiSummary(req)
  {
    AiSummarySpec(req);
  }

  /** A lone `from` is refused with the refinement's message under "query.query". */
  lemma LoneFromMessage(from: string, message: string)
    requires IsDateText(from)
    ensures Validate(Parse(DateRangeIssues(Request(map[], map["from" := Str(from)], map[])), message)) ==
            NextWithAppError(ValidationFailed + "query.query: " + RangeMessage, 400)
  {
    LoneFromIsRefused(from);
    RangeRefusal(message);
  }

  /** The one refinement issue of the range schema, as `validate` reports it. */
  lemma RangeRefusal(message: string)
    ensures Validate(Parse([Issue(["query", "query"], RangeMessage)], message)) ==
            NextWithAppError(ValidationFailed + "query.query: " + RangeMessage, 400)
  {
    var i := Issue(["query", "query"], RangeMessage);
    assert i.path[..1] == ["query"];
    assert FormatIssue(i) == "query.query: " + RangeMessage;
    assert FormatIssues([i]) == ["query.query: " + RangeMessage];
  }
}
