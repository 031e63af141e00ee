/** The request schemas of backend/validators/workLog.schema.js, as the issue
    lists zod (version 3) produces for them, each with a plain acceptance
    predicate it is proved to agree with. */
module WorkLogSchema {
  import opened Common

  /** A request value as zod sees it: absent, a string, an array, or some other
      JavaScript value reported under zod's name for its type ("number",
      "boolean", "null", "object", ...). */
  datatype Json = Undefined | Str(s: string) | Arr(items: seq<Json>) | Other(typeName: string)

  type Fields = map<string, Json>

  /** `{ body: req.body || {}, query: req.query || {}, params: req.params || {} }`. */
  datatype Request = Request(body: Fields, query: Fields, params: Fields)

  /** One zod issue: where it is, and its message. */
  datatype Issue = Issue(path: seq<string>, message: string)

  /** The issues of one value, and whether zod gave up on it (a type error)
      rather than only marking it dirty (a failed check). */
  datatype Checked = Checked(issues: seq<Issue>, aborted: bool)

  function Lookup(f: Fields, k: string): Json {
    if k in f then f[k] else Undefined
  }

  /** zod's name for a value's type in "Expected ..., received ..." messages. */
  function TypeName(v: Json): string {
    match v
    case Undefined => "undefined"
    case Str(_) => "string"
    case Arr(_) => "array"
    case Other(n) => n
  }

  /** The string checks used by the schemas. */
  datatype Check = DateRegex | DigitsRegex | NonEmpty

  /** `/^\d{4}-\d{2}-\d{2}$/`, `/^\d+$/` and `.min(1)`. */
  predicate Passes(c: Check, s: string) {
    match c
    case DateRegex => IsDateText(s)
    case DigitsRegex => IsDigitText(s)
    case NonEmpty => |s| >= 1
  }

  /** A string field: `z.string().<check>(message)`, optional or not. */
  datatype StringField = StringField(key: string, check: Check, message: string, optional: bool)

  function CheckString(path: seq<string>, f: StringField, v: Json): Checked
  {
    match v
    case Undefined => if f.optional then Checked([], false) else Checked([Issue(path, "Required")], true)
    case Str(s) => if Passes(f.check, s) then Checked([], false) else Checked([Issue(path, f.message)], false)
    case _ => Checked([Issue(path, "Expected string, received " + TypeName(v))], true)
  }

  /** The items of `z.array(z.string())`, each non-string one reported at its index. */
  function CheckItems(path: seq<string>, items: seq<Json>, from: nat): Checked
    decreases |items|
  {
    if items == [] then Checked([], false)
    else
      var head := if items[0].Str? then Checked([], false)
                  else Checked([Issue(path + [NatToString(from)], "Expected string, received " + TypeName(items[0]))], true);
      var rest := CheckItems(path, items[1..], from + 1);
      Checked(head.issues + rest.issues, head.aborted || rest.aborted)
  }

  /** `z.array(z.string()).optional()`. */
  function CheckStringArray(path: seq<string>, v: Json): Checked
  {
    match v
    case Undefined => Checked([], false)
    case Arr(items) => CheckItems(path, items, 0)
    case _ => Checked([Issue(path, "Expected array, received " + TypeName(v))], true)
  }

  /** The fields of a `z.object`, checked in declaration order; every issue is
      kept, and the object is aborted when any field is. */
  function CheckFields(path: seq<string>, fs: seq<StringField>, obj: Fields): Checked
  {
    if fs == [] then Checked([], false)
    else
      var head := CheckString(path + [fs[0].key], fs[0], Lookup(obj, fs[0].key));
      var rest := CheckFields(path, fs[1..], obj);
      Checked(head.issues + rest.issues, head.aborted || rest.aborted)
  }

  function Then(a: Checked, b: Checked): Checked {
    Checked(a.issues + b.issues, a.aborted || b.aborted)
  }

  // ---------------------------------------------------------------------------
  // The four schemas
  // ---------------------------------------------------------------------------

  const DateMessage := "Date must be in YYYY-MM-DD format"
  const ContentMessage := "Content cannot be empty"
  const RangeMessage := "Both 'from' and 'to' dates are required for a range query"

  function CreateLogFields(): seq<StringField> {
    [StringField("date", DateRegex, DateMessage, false), StringField("content", NonEmpty, ContentMessage, false)]
  }

  function UpdateTaskParams(): seq<StringField> {
    [StringField("logId", NonEmpty, "Log ID is required", false), StringField("taskId", NonEmpty, "Task ID is required", false)]
  }

  function DateRangeFields(): seq<StringField> {
    [StringField("from", DateRegex, "From date must be YYYY-MM-DD", true),
     StringField("to", DateRegex, "To date must be YYYY-MM-DD", true),
     StringField("page", DigitsRegex, "Page must be a number", true),
     StringField("limit", DigitsRegex, "Limit must be a number", true),
     StringField("date", DateRegex, "Date must be YYYY-MM-DD", true)]
  }

  function AiSummaryFields(): seq<StringField> {
    [StringField("start", DateRegex, "Start date must be YYYY-MM-DD", true),
     StringField("end", DateRegex, "End date must be YYYY-MM-DD", true)]
  }

  /** `createLogSchema`. */
  function CreateLogIssues(req: Request): seq<Issue> {
    CheckFields(["body"], CreateLogFields(), req.body).issues
  }

  /** `updateTaskSchema`: `params` first, then `body`. */
  function UpdateTaskIssues(req: Request): seq<Issue> {
    Then(CheckFields(["params"], UpdateTaskParams(), req.params),
         Then(CheckFields(["body"], [StringField("content", NonEmpty, ContentMessage, false)], req.body),
              CheckStringArray(["body", "tags"], Lookup(req.body, "tags")))).issues
  }

  /** A value the refinement reads as truthy; only strings reach it. */
  predicate Truthy(v: Json) {
    v.Str? && v.s != ""
  }

  /** `dateRangeSchema`: the refinement runs unless the query object was aborted,
      and its issue sits at `["query", "query"]`. */
  function DateRangeIssues(req: Request): seq<Issue> {
    var q := CheckFields(["query"], DateRangeFields(), req.query);
    var from := Lookup(req.query, "from");
    var to := Lookup(req.query, "to");
    if !q.aborted && Truthy(from) != Truthy(to) then q.issues + [Issue(["query", "query"], RangeMessage)]
    else q.issues
  }

  /** `aiSummarySchema`: `body` first, then `query`. */
  function AiSummaryIssues(req: Request): seq<Issue> {
    Then(CheckFields(["body"], AiSummaryFields(), req.body), CheckFields(["query"], AiSummaryFields(), req.query)).issues
  }

  // ---------------------------------------------------------------------------
  // Acceptance, stated field by field
  // ---------------------------------------------------------------------------

  predicate StrWith(v: Json, c: Check) { v.Str? && Passes(c, v.s) }
  predicate OptionalStrWith(v: Json, c: Check) { v.Undefined? || StrWith(v, c) }

  /** A field list accepts an object exactly when every field is present as a
      string passing its check, or is optional and absent. */
  lemma {:induction false} CheckFieldsSpec(path: seq<string>, fs: seq<StringField>, obj: Fields)
    ensures var c := CheckFields(path, fs, obj);
      (c.issues == [] <==> forall i :: 0 <= i < |fs| ==>
         (if fs[i].optional then OptionalStrWith(Lookup(obj, fs[i].key), fs[i].check)
          else StrWith(Lookup(obj, fs[i].key), fs[i].check))) &&
      (!c.aborted <==> forall i :: 0 <= i < |fs| ==>
         Lookup(obj, fs[i].key).Str? || (fs[i].optional && Lookup(obj, fs[i].key).Undefined?))
  {
    if fs != [] {
      CheckFieldsSpec(path, fs[1..], obj);
      assert forall i :: 1 <= i < |fs| ==> fs[i] == fs[1..][i - 1];
    }
  }

  lemma {:induction false} CheckItemsSpec(path: seq<string>, items: seq<Json>, from: nat)
    ensures CheckItems(path, items, from).issues == [] <==> forall i :: 0 <= i < |items| ==> items[i].Str?
    decreases |items|
  {
    if items != [] {
      CheckItemsSpec(path, items[1..], from + 1);
      assert forall i :: 1 <= i < |items| ==> items[i] == items[1..][i - 1];
    }
  }

  predicate AcceptsCreateLog(req: Request) {
    StrWith(Lookup(req.body, "date"), DateRegex) && StrWith(Lookup(req.body, "content"), NonEmpty)
  }

  predicate AcceptsUpdateTask(req: Request) {
    StrWith(Lookup(req.params, "logId"), NonEmpty) && StrWith(Lookup(req.params, "taskId"), NonEmpty) &&
    StrWith(Lookup(req.body, "content"), NonEmpty) &&
    var tags := Lookup(req.body, "tags");
    tags.Undefined? || (tags.Arr? && forall i :: 0 <= i < |tags.items| ==> tags.items[i].Str?)
  }

  predicate AcceptsDateRange(req: Request) {
    var q := req.query;
    OptionalStrWith(Lookup(q, "from"), DateRegex) && OptionalStrWith(Lookup(q, "to"), DateRegex) &&
    OptionalStrWith(Lookup(q, "page"), DigitsRegex) && OptionalStrWith(Lookup(q, "limit"), DigitsRegex) &&
    OptionalStrWith(Lookup(q, "date"), DateRegex) &&
    (Lookup(q, "from").Undefined? <==> Lookup(q, "to").Undefined?)
  }

  predicate AcceptsAiSummary(req: Request) {
    OptionalStrWith(Lookup(req.body, "start"), DateRegex) && OptionalStrWith(Lookup(req.body, "end"), DateRegex) &&
    OptionalStrWith(Lookup(req.query, "start"), DateRegex) && OptionalStrWith(Lookup(req.query, "end"), DateRegex)
  }

  lemma CreateLogSpec(req: Request)
    ensures CreateLogIssues(req) == [] <==> AcceptsCreateLog(req)
  {
    CheckFieldsSpec(["body"], CreateLogFields(), req.body);
    assert CreateLogFields()[0].key == "date" && CreateLogFields()[1].key == "content";
  }

  lemma UpdateTaskSpec(req: Request)
    ensures UpdateTaskIssues(req) == [] <==> AcceptsUpdateTask(req)
  {
    CheckFieldsSpec(["params"], UpdateTaskParams(), req.params);
    assert UpdateTaskParams()[0].key == "logId" && UpdateTaskParams()[1].key == "taskId";
    var cf := [StringField("content", NonEmpty, ContentMessage, false)];
    CheckFieldsSpec(["body"], cf, req.body);
    assert cf[0].key == "content";
    var tags := Lookup(req.body, "tags");
    if tags.Arr? {
      CheckItemsSpec(["body", "tags"], tags.items, 0);
    }
  }

  lemma DateRangeSpec(req: Request)
    ensures DateRangeIssues(req) == [] <==> AcceptsDateRange(req)
  {
    var fs := DateRangeFields();
    CheckFieldsSpec(["query"], fs, req.query);
    assert fs[0].key == "from" && fs[1].key == "to" && fs[2].key == "page" && fs[3].key == "limit" &&
           fs[4].key == "date";
  }

  lemma AiSummarySpec(req: Request)
    ensures AiSummaryIssues(req) == [] <==> AcceptsAiSummary(req)
  {
    var fs := AiSummaryFields();
    CheckFieldsSpec(["body"], fs, req.body);
    CheckFieldsSpec(["query"], fs, req.query);
    assert fs[0].key == "start" && fs[1].key == "end";
  }

  /** A `from` without a `to` draws exactly the refinement's issue. */
  lemma LoneFromIsRefused(from: string)
    requires IsDateText(from)
    ensures DateRangeIssues(Request(map[], map["from" := Str(from)], map[])) ==
            [Issue(["query", "query"], RangeMessage)]
  {
    var req := Request(map[], map["from" := Str(from)], map[]);
    var fs := DateRangeFields();
    CheckFieldsSpec(["query"], fs, req.query);
    assert fs[0].key == "from" && fs[1].key == "to" && fs[2].key == "page" && fs[3].key == "limit" &&
           fs[4].key == "date";
  }

  /** The schema checks the shape of a date only: a month 13 passes. */
  lemma ShapeOnlyDate()
    ensures AcceptsCreateLog(Request(map["date" := Str("2024-13-99"), "content" := Str("x")], map[], map[]))
  {
    assert IsDateText("2024-13-99") by {
      var s := "2024-13-99";
      assert AllDigits(s[..4]) && AllDigits(s[5..7]) && AllDigits(s[8..]);
    }
  }

  /** `.min(1)` lets whitespace-only content through; the handler's trim check
      is what refuses it. */
  lemma BlankContentPassesSchema()
    ensures AcceptsCreateLog(Request(map["date" := Str("2024-05-01"), "content" := Str(" ")], map[], map[]))
    ensures Trim(" ") == []
  {
    assert IsDateText("2024-05-01") by {
      var s := "2024-05-01";
      assert AllDigits(s[..4]) && AllDigits(s[5..7]) && AllDigits(s[8..]);
    }
    assert AllWhitespace(" ") by {
      assert IsJsWhitespace(" "[0]);
    }
  }
}
