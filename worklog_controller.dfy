/** The work-log handlers of backend/controllers/workLog.controller.js: the
    `$push` upsert of a task, the positional update of one task's content, the
    day / range / all-logs queries, the export rows and the AI-summary prompt. */
module WorkLogController {
  import opened Common
  import opened WorkLogModel

  const DateAndContentRequired := "Date and content are required"
  const FromAndToRequired := "From and To dates are required"
  const StartAndEndRequired := "Start and end dates are required"
  const NoLogsSummary := "No logs found for the selected date range."
  const PromptHead :=
    "Summarize the following work logs into a concise weekly report highlighting key achievements and progress:\n\n"
  const PromptTail := "\n\nSummary:"

  predicate IsUserDay(l: WorkLog, user: UserId, day: Day) {
    l.userId == user && l.date == day
  }

  predicate InRange(l: WorkLog, user: UserId, from: Day, to: Day) {
    l.userId == user && from <= l.date <= to
  }

  /** Sort keys for `.sort({ date: 1 })` and `.sort({ date: -1 })`. */
  function Ascending(l: WorkLog): int { l.date }
  function Descending(l: WorkLog): int { -(l.date as int) }

  // ---------------------------------------------------------------------------
  // addOrUpdateLog
  // ---------------------------------------------------------------------------

  /** The guard `!date || !content || content.trim() === ""`. */
  predicate RejectsEntry(date: Option<string>, content: Option<string>) {
    Falsy(date) || Falsy(content) || Trim(content.value) == ""
  }

  datatype Upserted = Upserted(logs: seq<WorkLog>, log: WorkLog)

  /** `findOneAndUpdate({ userId, date }, { $push: { tasks: task } }, { upsert: true, new: true })`:
      the collection afterwards and the document returned. */
  function Upsert(logs: seq<WorkLog>, user: UserId, day: Day, task: Task, logId: ObjectId, now: Instant): Upserted
  {
    match FirstIndex(logs, (l: WorkLog) => IsUserDay(l, user, day))
    case Some(i) =>
      var l := logs[i].(tasks := logs[i].tasks + [task], updatedAt := now);
      Upserted(logs[i := l], l)
    case None =>
      var l := WorkLog(logId, user, day, [task], now, now);
      Upserted(logs + [l], l)
  }

  /** On an existing (user, day) log the task goes to the end of that log and
      nothing else in the collection changes. */
  lemma UpsertIntoExisting(logs: seq<WorkLog>, user: UserId, day: Day, task: Task, logId: ObjectId,
                           now: Instant, i: nat)
    requires UniqueUserDay(logs) && i < |logs| && IsUserDay(logs[i], user, day)
    ensures var u := Upsert(logs, user, day, task, logId, now);
      |u.logs| == |logs| && u.logs[i] == u.log &&
      u.log.tasks == logs[i].tasks + [task] &&
      u.log.id == logs[i].id && u.log.userId == user && u.log.date == day &&
      u.log.createdAt == logs[i].createdAt && u.log.updatedAt == now &&
      forall k :: 0 <= k < |logs| && k != i ==> u.logs[k] == logs[k]
  {
    var f := FirstIndex(logs, (l: WorkLog) => IsUserDay(l, user, day));
    assert f.Some?;
    UserDayDetermines(logs, f.value, i);
  }

  /** Without one, a new log holding exactly that task is added at the end. */
  lemma UpsertCreates(logs: seq<WorkLog>, user: UserId, day: Day, task: Task, logId: ObjectId, now: Instant)
    requires forall k :: 0 <= k < |logs| ==> !IsUserDay(logs[k], user, day)
    ensures var u := Upsert(logs, user, day, task, logId, now);
      u.log == WorkLog(logId, user, day, [task], now, now) && u.logs == logs + [u.log]
  {
  }

  /** Appending a task with a fresh id keeps every key unique. */
  lemma UpsertKeepsInvariant(logs: seq<WorkLog>, n: ObjectId, user: UserId, day: Day, content: string, now: Instant)
    requires StoreInvariant(logs, n)
    ensures StoreInvariant(Upsert(logs, user, day, Task(n, content, [], now), n + 1, now).logs, n + 2)
  {
    var task := Task(n, content, [], now);
    var u := Upsert(logs, user, day, task, n + 1, now);
    match FirstIndex(logs, (l: WorkLog) => IsUserDay(l, user, day))
    case Some(i) =>
      assert u.logs == logs[i := u.log];
      assert UniqueUserDay(u.logs) && DistinctLogIds(u.logs) by {
        forall p, q | 0 <= p < q < |u.logs|
          ensures u.logs[p].userId != u.logs[q].userId || u.logs[p].date != u.logs[q].date
          ensures u.logs[p].id != u.logs[q].id
        {
          assert u.logs[p].userId == logs[p].userId && u.logs[p].date == logs[p].date && u.logs[p].id == logs[p].id;
          assert u.logs[q].userId == logs[q].userId && u.logs[q].date == logs[q].date && u.logs[q].id == logs[q].id;
        }
      }
      assert DistinctTaskIds(u.logs) by {
        forall p, q, a, b |
          0 <= p < |u.logs| && 0 <= q < |u.logs| && 0 <= a < |u.logs[p].tasks| && 0 <= b < |u.logs[q].tasks| &&
          (p != q || a != b)
          ensures u.logs[p].tasks[a].id != u.logs[q].tasks[b].id
        {
          TaskIdAfterAppend(logs, i, u.logs, task, p, a);
          TaskIdAfterAppend(logs, i, u.logs, task, q, b);
        }
      }
      assert IdsBelow(u.logs, n + 2) by {
        forall p | 0 <= p < |u.logs| ensures u.logs[p].id < n + 2 {
          assert u.logs[p].id == logs[p].id;
        }
        forall p, a | 0 <= p < |u.logs| && 0 <= a < |u.logs[p].tasks| ensures u.logs[p].tasks[a].id < n + 2 {
          TaskIdAfterAppend(logs, i, u.logs, task, p, a);
        }
      }
    case None =>
      assert u.logs == logs + [u.log];
  }

  lemma TaskIdAfterAppend(logs: seq<WorkLog>, i: nat, logs': seq<WorkLog>, task: Task, p: nat, a: nat)
    requires i < |logs| && |logs'| == |logs|
    requires logs'[i].tasks == logs[i].tasks + [task]
    requires forall k :: 0 <= k < |logs| && k != i ==> logs'[k] == logs[k]
    requires p < |logs'| && a < |logs'[p].tasks|
    ensures if p == i && a == |logs[i].tasks| then logs'[p].tasks[a] == task
            else a < |logs[p].tasks| && logs'[p].tasks[a] == logs[p].tasks[a]
  {
  }

  /** POST /worklogs. The stored content is the submitted text, untrimmed; the
      reply is the document after the update. */
  method AddOrUpdateLog(store: Collection, userId: UserId, date: Option<string>, content: Option<string>,
                        now: Instant) returns (r: Reply<WorkLog>)
    requires store.Valid()
    modifies store
    ensures store.Valid()
    ensures RejectsEntry(date, content) ==>
      r == BadRequest(DateAndContentRequired) && store.logs == old(store.logs) && store.nextId == old(store.nextId)
    ensures !RejectsEntry(date, content) && !IsDateText(date.value) ==>
      r == ServerError && store.logs == old(store.logs) && store.nextId == old(store.nextId)
    ensures !RejectsEntry(date, content) && IsDateText(date.value) ==>
      var u := Upsert(old(store.logs), userId, ParseDay(date.value).value,
                      Task(old(store.nextId), content.value, [], now), old(store.nextId) + 1, now);
      store.logs == u.logs && r == Ok(u.log) && store.nextId == old(store.nextId) + 2
  {
    if RejectsEntry(date, content) {
      return BadRequest(DateAndContentRequired);
    }
    var day := ParseDay(date.value);
    if day.None? {
      return ServerError;
    }
    var taskId := store.NewObjectId();
    var logId := store.NewObjectId();
    UpsertKeepsInvariant(store.logs, taskId, userId, day.value, content.value, now);
    var u := Upsert(store.logs, userId, day.value, Task(taskId, content.value, [], now), logId, now);
    store.logs := u.logs;
    r := Ok(u.log);
  }

  // ---------------------------------------------------------------------------
  // updateTask
  // ---------------------------------------------------------------------------

  predicate HasTaskId(l: WorkLog, taskId: ObjectId) {
    exists k :: 0 <= k < |l.tasks| && l.tasks[k].id == taskId
  }

  datatype TaskUpdated = TaskUpdated(logs: seq<WorkLog>, log: Option<WorkLog>)

  /** `findOneAndUpdate({ _id: logId, "tasks._id": taskId }, { $set: { "tasks.$.content": content } }, { new: true })`.
      The positional `$` names the first matching task; no match leaves the
      collection alone and yields null. */
  function SetTaskContent(logs: seq<WorkLog>, logId: ObjectId, taskId: ObjectId, content: string,
                          now: Instant): TaskUpdated
  {
    match FirstIndex(logs, (l: WorkLog) => l.id == logId && HasTaskId(l, taskId))
    case None => TaskUpdated(logs, None)
    case Some(i) =>
      match FirstIndex(logs[i].tasks, (t: Task) => t.id == taskId)
      case None => TaskUpdated(logs, None)
      case Some(k) =>
        var l := logs[i].(tasks := logs[i].tasks[k := logs[i].tasks[k].(content := content)], updatedAt := now);
        TaskUpdated(logs[i := l], Some(l))
  }

  /** The update reaches exactly the addressed task of the addressed log and
      changes its content only. */
  lemma SetTaskContentTargets(logs: seq<WorkLog>, logId: ObjectId, taskId: ObjectId, content: string,
                              now: Instant, i: nat, k: nat)
    requires DistinctLogIds(logs) && DistinctTaskIds(logs)
    requires i < |logs| && k < |logs[i].tasks| && logs[i].id == logId && logs[i].tasks[k].id == taskId
    ensures var l := logs[i].(tasks := logs[i].tasks[k := logs[i].tasks[k].(content := content)], updatedAt := now);
      SetTaskContent(logs, logId, taskId, content, now) == TaskUpdated(logs[i := l], Some(l))
  {
    var f := FirstIndex(logs, (l: WorkLog) => l.id == logId && HasTaskId(l, taskId));
    assert HasTaskId(logs[i], taskId);
    assert f.Some?;
    assert f.value == i;
    var g := FirstIndex(logs[i].tasks, (t: Task) => t.id == taskId);
    assert g.Some?;
    assert g.value == k;
  }

  /** Nothing changes and the reply is null when no log holds the pair. */
  lemma SetTaskContentMissing(logs: seq<WorkLog>, logId: ObjectId, taskId: ObjectId, content: string, now: Instant)
    requires forall i :: 0 <= i < |logs| ==> !(logs[i].id == logId && HasTaskId(logs[i], taskId))
    ensures SetTaskContent(logs, logId, taskId, content, now) == TaskUpdated(logs, None)
  {
  }

  /** Whatever the request, tags, ids, order and every other field stay as they were. */
  lemma SetTaskContentKeepsTags(logs: seq<WorkLog>, logId: ObjectId, taskId: ObjectId, content: string, now: Instant)
    ensures var u := SetTaskContent(logs, logId, taskId, content, now);
      SameKeys(logs, u.logs) &&
      forall i, k :: 0 <= i < |logs| && 0 <= k < |logs[i].tasks| ==>
        u.logs[i].tasks[k].tags == logs[i].tasks[k].tags &&
        u.logs[i].tasks[k].createdAt == logs[i].tasks[k].createdAt
  {
  }

  /** PUT /worklogs/task/:logId/:taskId, as written: the requesting user is not consulted. */
  method UpdateTask(store: Collection, logId: ObjectId, taskId: ObjectId, content: string, now: Instant)
    returns (r: Reply<Option<WorkLog>>)
    requires store.Valid()
    modifies store`logs
    ensures store.Valid()
    ensures var u := SetTaskContent(old(store.logs), logId, taskId, content, now);
      store.logs == u.logs && r == Ok(u.log)
  {
    var u := SetTaskContent(store.logs, logId, taskId, content, now);
    SetTaskContentKeepsTags(store.logs, logId, taskId, content, now);
    SameKeysKeepInvariant(store.logs, u.logs, store.nextId);
    store.logs := u.logs;
    r := Ok(u.log);
  }

  /** The update the handler evidently means: scoped to the requesting user's
      logs, and storing the edited tags when the body carries them. */
  function SetOwnTask(logs: seq<WorkLog>, user: UserId, logId: ObjectId, taskId: ObjectId, content: string,
                      tags: Option<seq<string>>, now: Instant): TaskUpdated
  {
    match FirstIndex(logs, (l: WorkLog) => l.id == logId && l.userId == user && HasTaskId(l, taskId))
    case None => TaskUpdated(logs, None)
    case Some(i) =>
      match FirstIndex(logs[i].tasks, (t: Task) => t.id == taskId)
      case None => TaskUpdated(logs, None)
      case Some(k) =>
        var t := logs[i].tasks[k];
        var t' := t.(content := content, tags := if tags.Some? then tags.value else t.tags);
        var l := logs[i].(tasks := logs[i].tasks[k := t'], updatedAt := now);
        TaskUpdated(logs[i := l], Some(l))
  }

  /** The corrected PUT /worklogs/task/:logId/:taskId on the store. */
  method UpdateOwnTask(store: Collection, user: UserId, logId: ObjectId, taskId: ObjectId, content: string,
                       tags: Option<seq<string>>, now: Instant) returns (r: Reply<Option<WorkLog>>)
    requires store.Valid()
    modifies store`logs
    ensures store.Valid()
    ensures var u := SetOwnTask(old(store.logs), user, logId, taskId, content, tags, now);
      store.logs == u.logs && r == Ok(u.log)
  {
    var u := SetOwnTask(store.logs, user, logId, taskId, content, tags, now);
    SetOwnTaskSparesOthers(store.logs, user, logId, taskId, content, tags, now);
    SameKeysKeepInvariant(store.logs, u.logs, store.nextId);
    store.logs := u.logs;
    r := Ok(u.log);
  }

  /** Another user's logs are never touched by the corrected update. */
  lemma SetOwnTaskSparesOthers(logs: seq<WorkLog>, user: UserId, logId: ObjectId, taskId: ObjectId,
                               content: string, tags: Option<seq<string>>, now: Instant)
    ensures var u := SetOwnTask(logs, user, logId, taskId, content, tags, now);
      SameKeys(logs, u.logs) &&
      forall i :: 0 <= i < |logs| && logs[i].userId != user ==> u.logs[i] == logs[i]
  {
  }

  /** The corrected update stores the tags the edit modal sends. */
  lemma SetOwnTaskStoresTags(logs: seq<WorkLog>, user: UserId, logId: ObjectId, taskId: ObjectId,
                             content: string, tags: seq<string>, now: Instant, i: nat, k: nat)
    requires DistinctLogIds(logs) && DistinctTaskIds(logs)
    requires i < |logs| && k < |logs[i].tasks| && logs[i].id == logId && logs[i].userId == user
    requires logs[i].tasks[k].id == taskId
    ensures var u := SetOwnTask(logs, user, logId, taskId, content, Some(tags), now);
      u.log.Some? && u.logs[i] == u.log.value &&
      u.log.value.tasks[k].tags == tags && u.log.value.tasks[k].content == content
  {
    var f := FirstIndex(logs, (l: WorkLog) => l.id == logId && l.userId == user && HasTaskId(l, taskId));
    assert HasTaskId(logs[i], taskId);
    assert f.Some?;
    assert f.value == i;
    var g := FirstIndex(logs[i].tasks, (t: Task) => t.id == taskId);
    assert g.Some?;
    assert g.value == k;
  }

  /** As written, a request naming user 1's log overwrites that task whoever sends
      it, and the tags sent with it are dropped; the corrected update, asked by
      user 2, leaves the log alone. */
  lemma UpdateTaskAsWrittenCounterexample()
    ensures var logs := [WorkLog(7, 1, 20240501, [Task(8, "Fixed login bug", [], 0)], 0, 0)];
      var u := SetTaskContent(logs, 7, 8, "edited", 5);
      u.logs[0].userId == 1 && u.logs[0].tasks[0].content == "edited" && u.logs[0].tasks[0].tags == [] &&
      SetOwnTask(logs, 2, 7, 8, "edited", Some(["BugFix"]), 5) == TaskUpdated(logs, None) &&
      SetOwnTask(logs, 1, 7, 8, "edited", Some(["BugFix"]), 5).logs[0].tasks[0].tags == ["BugFix"]
  {
    var logs := [WorkLog(7, 1, 20240501, [Task(8, "Fixed login bug", [], 0)], 0, 0)];
    assert logs[0].tasks[0].id == 8;
    assert HasTaskId(logs[0], 8);
  }

  // ---------------------------------------------------------------------------
  // Queries
  // ---------------------------------------------------------------------------

  /** What GET /worklogs/date/:date sends: the log, or the placeholder `{ tasks: [] }`. */
  datatype DayView = Found(log: WorkLog) | Placeholder

  /** `findOne({ userId, date: { $gte: start, $lte: end } })` over the requested day. */
  function GetLogByDate(logs: seq<WorkLog>, user: UserId, dateParam: string): Reply<DayView>
  {
    match ParseDay(dateParam)
    case None => ServerError
    case Some(day) =>
      match FirstIndex(logs, (l: WorkLog) => IsUserDay(l, user, day))
      case Some(i) => Ok(Found(logs[i]))
      case None => Ok(Placeholder)
  }

  /** With unique (user, day) keys the reply is that user's log of that day, or
      the placeholder exactly when there is none. */
  lemma GetLogByDateSpec(logs: seq<WorkLog>, user: UserId, dateParam: string, l: WorkLog)
    requires UniqueUserDay(logs) && IsDateText(dateParam)
    ensures GetLogByDate(logs, user, dateParam) == Ok(Found(l)) <==>
            l in logs && IsUserDay(l, user, ParseDay(dateParam).value)
    ensures GetLogByDate(logs, user, dateParam) == Ok(Placeholder) <==>
            forall k :: 0 <= k < |logs| ==> !IsUserDay(logs[k], user, ParseDay(dateParam).value)
  {
    var day := ParseDay(dateParam).value;
    var f := FirstIndex(logs, (x: WorkLog) => IsUserDay(x, user, day));
    if l in logs && IsUserDay(l, user, day) {
      var j :| 0 <= j < |logs| && logs[j] == l;
      assert f.Some?;
      UserDayDetermines(logs, f.value, j);
    }
  }

  /** `find({ userId })`: the user's logs in natural order. */
  function OwnLogs(logs: seq<WorkLog>, user: UserId): seq<WorkLog>
  {
    Filter(logs, (l: WorkLog) => l.userId == user)
  }

  /** `find({ userId, date: { $gte: from, $lte: to } })`. */
  function RangeLogs(logs: seq<WorkLog>, user: UserId, from: Day, to: Day): seq<WorkLog>
  {
    Filter(logs, (l: WorkLog) => InRange(l, user, from, to))
  }

  /** The user's logs dated from..to, oldest first. */
  function LogsInRange(logs: seq<WorkLog>, user: UserId, from: Day, to: Day): seq<WorkLog>
  {
    SortBy(RangeLogs(logs, user, from, to), Ascending)
  }

  /** The user's logs, newest first. */
  function GetAllLogs(logs: seq<WorkLog>, user: UserId): seq<WorkLog>
  {
    SortBy(OwnLogs(logs, user), Descending)
  }

  lemma UniqueNoRepeats(logs: seq<WorkLog>)
    requires UniqueUserDay(logs)
    ensures NoRepeats(logs)
  {
  }

  lemma OwnLogsSpec(logs: seq<WorkLog>, user: UserId)
    requires UniqueUserDay(logs)
    ensures var r := OwnLogs(logs, user);
      NoRepeats(r) &&
      (forall i :: 0 <= i < |r| ==> r[i] in logs && r[i].userId == user) &&
      (forall i :: 0 <= i < |logs| && logs[i].userId == user ==> logs[i] in r)
  {
    UniqueNoRepeats(logs);
    FilterNoRepeats(logs, (l: WorkLog) => l.userId == user);
  }

  lemma RangeLogsSpec(logs: seq<WorkLog>, user: UserId, from: Day, to: Day)
    requires UniqueUserDay(logs)
    ensures var r := RangeLogs(logs, user, from, to);
      NoRepeats(r) &&
      (forall i :: 0 <= i < |r| ==> r[i] in logs && InRange(r[i], user, from, to)) &&
      (forall i :: 0 <= i < |logs| && InRange(logs[i], user, from, to) ==> logs[i] in r)
  {
    UniqueNoRepeats(logs);
    FilterNoRepeats(logs, (l: WorkLog) => InRange(l, user, from, to));
  }

  /** Sorting a repeat-free selection of one user's logs keeps exactly its
      members, and no two of them share a day. */
  lemma SortedOneUser(logs: seq<WorkLog>, sel: seq<WorkLog>, user: UserId, key: WorkLog -> int)
    requires UniqueUserDay(logs) && NoRepeats(sel)
    requires forall i :: 0 <= i < |sel| ==> sel[i] in logs && sel[i].userId == user
    ensures var r := SortBy(sel, key);
      (forall i :: 0 <= i < |r| ==> r[i] in sel) &&
      (forall i :: 0 <= i < |sel| ==> sel[i] in r) &&
      (forall i, j :: 0 <= i < j < |r| ==> r[i].date != r[j].date)
  {
    var r := SortBy(sel, key);
    NoRepeatsPermutation(sel, r);
    forall i | 0 <= i < |r| ensures r[i] in sel {
      assert r[i] in multiset(sel);
    }
    forall i | 0 <= i < |sel| ensures sel[i] in r {
      assert sel[i] in multiset(r);
    }
    forall i, j | 0 <= i < j < |r| ensures r[i].date != r[j].date {
      var a :| 0 <= a < |sel| && sel[a] == r[i];
      var b :| 0 <= b < |sel| && sel[b] == r[j];
      var p :| 0 <= p < |logs| && logs[p] == sel[a];
      var q :| 0 <= q < |logs| && logs[q] == sel[b];
    }
  }

  /** Exactly the user's logs dated within [from, to], in strictly ascending date order. */
  lemma LogsInRangeSpec(logs: seq<WorkLog>, user: UserId, from: Day, to: Day)
    requires UniqueUserDay(logs)
    ensures var r := LogsInRange(logs, user, from, to);
      (forall i :: 0 <= i < |r| ==> r[i] in logs && InRange(r[i], user, from, to)) &&
      (forall i :: 0 <= i < |logs| && InRange(logs[i], user, from, to) ==> logs[i] in r) &&
      (forall i, j :: 0 <= i < j < |r| ==> r[i].date < r[j].date)
  {
    var sel := RangeLogs(logs, user, from, to);
    RangeLogsSpec(logs, user, from, to);
    SortedOneUser(logs, sel, user, Ascending);
    var r := SortBy(sel, Ascending);
    forall i | 0 <= i < |r| ensures r[i] in logs && InRange(r[i], user, from, to) {
      var a :| 0 <= a < |sel| && sel[a] == r[i];
    }
    forall i, j | 0 <= i < j < |r| ensures r[i].date < r[j].date {
      assert Ascending(r[i]) <= Ascending(r[j]);
    }
  }

  /** Exactly the user's logs, in strictly descending date order. */
  lemma GetAllLogsSpec(logs: seq<WorkLog>, user: UserId)
    requires UniqueUserDay(logs)
    ensures var r := GetAllLogs(logs, user);
      (forall i :: 0 <= i < |r| ==> r[i] in logs && r[i].userId == user) &&
      (forall i :: 0 <= i < |logs| && logs[i].userId == user ==> logs[i] in r) &&
      (forall i, j :: 0 <= i < j < |r| ==> r[i].date > r[j].date)
  {
    var sel := OwnLogs(logs, user);
    OwnLogsSpec(logs, user);
    SortedOneUser(logs, sel, user, Descending);
    var r := SortBy(sel, Descending);
    forall i | 0 <= i < |r| ensures r[i] in logs && r[i].userId == user {
      var a :| 0 <= a < |sel| && sel[a] == r[i];
    }
    forall i, j | 0 <= i < j < |r| ensures r[i].date > r[j].date {
      assert Descending(r[i]) <= Descending(r[j]);
    }
  }

  /** GET /worklogs/range?from&to. */
  function GetLogsByRange(logs: seq<WorkLog>, user: UserId, from: Option<string>, to: Option<string>)
    : Reply<seq<WorkLog>>
  {
    if Falsy(from) || Falsy(to) then BadRequest(FromAndToRequired)
    else match (ParseDay(from.value), ParseDay(to.value))
      case (Some(f), Some(t)) => Ok(LogsInRange(logs, user, f, t))
      case _ => ServerError
  }

  /** A missing bound is a 400; two day texts give the logs in range. */
  lemma GetLogsByRangeSpec(logs: seq<WorkLog>, user: UserId, from: Option<string>, to: Option<string>)
    ensures GetLogsByRange(logs, user, from, to).BadRequest? <==> Falsy(from) || Falsy(to)
    ensures !Falsy(from) && !Falsy(to) && IsDateText(from.value) && IsDateText(to.value) ==>
      GetLogsByRange(logs, user, from, to) ==
        Ok(LogsInRange(logs, user, ParseDay(from.value).value, ParseDay(to.value).value))
  {
  }

  // ---------------------------------------------------------------------------
  // getSummary: the rows of the Excel export
  // ---------------------------------------------------------------------------

  datatype SummaryRow = SummaryRow(date: string, tasks: string)

  function Contents(tasks: seq<Task>): (r: seq<string>)
    ensures |r| == |tasks| && forall i :: 0 <= i < |r| ==> r[i] == tasks[i].content
  {
    seq(|tasks|, i requires 0 <= i < |tasks| => tasks[i].content)
  }

  /** `{ date: log.date.toISOString().split("T")[0], tasks: contents.join(", ") }`. */
  function RowOf(l: WorkLog): SummaryRow
  {
    SummaryRow(FormatDay(l.date), Join(Contents(l.tasks), ", "))
  }

  /** A row's date cell is a YYYY-MM-DD text naming the log's own day. */
  lemma RowDateNamesDay(l: WorkLog)
    ensures IsDateText(RowOf(l).date) && ParseDay(RowOf(l).date) == Some(l.date)
  {
    DayRoundTrip(l.date);
  }

  /** The date filter applies only when both `start` and `end` are given. */
  function SummaryLogs(logs: seq<WorkLog>, user: UserId, start: Option<string>, end: Option<string>)
    : Reply<seq<WorkLog>>
  {
    if !Falsy(start) && !Falsy(end) then
      match (ParseDay(start.value), ParseDay(end.value))
      case (Some(f), Some(t)) => Ok(LogsInRange(logs, user, f, t))
      case _ => ServerError
    else Ok(SortBy(OwnLogs(logs, user), Ascending))
  }

  /** Without both bounds the export covers all of the user's logs, oldest first. */
  lemma SummaryLogsUnbounded(logs: seq<WorkLog>, user: UserId, start: Option<string>, end: Option<string>)
    requires UniqueUserDay(logs) && (Falsy(start) || Falsy(end))
    ensures SummaryLogs(logs, user, start, end).Ok?
    ensures var r := SummaryLogs(logs, user, start, end).body;
      (forall i :: 0 <= i < |r| ==> r[i] in logs && r[i].userId == user) &&
      (forall i :: 0 <= i < |logs| && logs[i].userId == user ==> logs[i] in r) &&
      (forall i, j :: 0 <= i < j < |r| ==> r[i].date < r[j].date)
  {
    var sel := OwnLogs(logs, user);
    assert SummaryLogs(logs, user, start, end) == Ok(SortBy(sel, Ascending));
    OwnLogsSpec(logs, user);
    SortedOneUser(logs, sel, user, Ascending);
    var r := SortBy(sel, Ascending);
    forall i | 0 <= i < |r| ensures r[i] in logs && r[i].userId == user {
      var a :| 0 <= a < |sel| && sel[a] == r[i];
    }
    forall i, j | 0 <= i < j < |r| ensures r[i].date < r[j].date {
      assert Ascending(r[i]) <= Ascending(r[j]);
    }
  }

  /** GET /worklogs/summary up to the workbook: one row per selected log, in order. */
  method GetSummary(logs: seq<WorkLog>, user: UserId, start: Option<string>, end: Option<string>)
    returns (r: Reply<seq<SummaryRow>>)
    ensures SummaryLogs(logs, user, start, end).ServerError? ==> r == ServerError
    ensures SummaryLogs(logs, user, start, end).Ok? ==>
      var sel := SummaryLogs(logs, user, start, end).body;
      r.Ok? && |r.body| == |sel| && forall i :: 0 <= i < |sel| ==> r.body[i] == RowOf(sel[i])
  {
    var found := SummaryLogs(logs, user, start, end);
    if !found.Ok? {
      return ServerError;
    }
    var sel := found.body;
    var rows: seq<SummaryRow> := [];
    var i := 0;
    while i < |sel|
      invariant 0 <= i <= |sel|
      invariant |rows| == i
      invariant forall k :: 0 <= k < i ==> rows[k] == RowOf(sel[k])
    {
      rows := rows + [RowOf(sel[i])];
      i := i + 1;
    }
    r := Ok(rows);
  }

  // ---------------------------------------------------------------------------
  // getAiSummary: guards and prompt text
  // ---------------------------------------------------------------------------

  /** Either the fixed reply for an empty range, or the prompt handed to the
      language model (whose answer is outside the model). */
  datatype AiOutcome = NoLogs(summary: string) | AskModel(prompt: string)

  /** "Date: d\nTasks: c1, c2, ..." for one log. */
  function LogBlock(l: WorkLog): string
  {
    "Date: " + FormatDay(l.date) + "\nTasks: " + Join(Contents(l.tasks), ", ")
  }

  function Blocks(logs: seq<WorkLog>): (r: seq<string>)
    ensures |r| == |logs| && forall i :: 0 <= i < |r| ==> r[i] == LogBlock(logs[i])
  {
    seq(|logs|, i requires 0 <= i < |logs| => LogBlock(logs[i]))
  }

  /** `logsText`: the blocks separated by a blank line. */
  function LogsText(logs: seq<WorkLog>): string
  {
    Join(Blocks(logs), "\n\n")
  }

  /** The text of a range is the texts of its parts, one blank line apart. */
  lemma LogsTextConcat(a: seq<WorkLog>, b: seq<WorkLog>)
    requires |a| >= 1 && |b| >= 1
    ensures LogsText(a + b) == LogsText(a) + "\n\n" + LogsText(b)
  {
    assert Blocks(a + b) == Blocks(a) + Blocks(b);
    JoinConcat(Blocks(a), Blocks(b), "\n\n");
  }

  /** A log's block shows the same date and task cells as its export row. */
  lemma LogBlockMatchesRow(l: WorkLog)
    ensures LogsText([l]) == "Date: " + RowOf(l).date + "\nTasks: " + RowOf(l).tasks
  {
    assert Blocks([l]) == [LogBlock(l)];
  }

  /** The ai-summary handler once each bound has been read. */
  function AiSummaryFor(logs: seq<WorkLog>, user: UserId, start: Option<string>, end: Option<string>): Reply<AiOutcome>
  {
    if Falsy(start) || Falsy(end) then BadRequest(StartAndEndRequired)
    else match (ParseDay(start.value), ParseDay(end.value))
      case (Some(f), Some(t)) =>
        var sel := LogsInRange(logs, user, f, t);
        if |sel| == 0 then Ok(NoLogs(NoLogsSummary))
        else Ok(AskModel(PromptHead + LogsText(sel) + PromptTail))
      case _ => ServerError
  }

  /** GET|POST /worklogs/ai-summary, each bound taken from the query, else the body. */
  function AiSummary(logs: seq<WorkLog>, user: UserId, queryStart: Option<string>, bodyStart: Option<string>,
                     queryEnd: Option<string>, bodyEnd: Option<string>): Reply<AiOutcome>
  {
    AiSummaryFor(logs, user, OrElse(queryStart, bodyStart), OrElse(queryEnd, bodyEnd))
  }

  /** 400 exactly when a bound is missing from both the query and the body. */
  lemma AiSummaryMissingBound(logs: seq<WorkLog>, user: UserId, qs: Option<string>, bs: Option<string>,
                              qe: Option<string>, be: Option<string>)
    ensures AiSummary(logs, user, qs, bs, qe, be).BadRequest? <==>
            (Falsy(qs) && Falsy(bs)) || (Falsy(qe) && Falsy(be))
  {
    var start := OrElse(qs, bs);
    var end := OrElse(qe, be);
    assert Falsy(start) <==> Falsy(qs) && Falsy(bs);
    assert Falsy(end) <==> Falsy(qe) && Falsy(be);
  }

  /** The range case for bounds already read. */
  lemma AiSummaryForRange(logs: seq<WorkLog>, user: UserId, start: string, end: string)
    requires UniqueUserDay(logs) && IsDateText(start) && IsDateText(end)
    ensures var from := ParseDay(start).value; var to := ParseDay(end).value;
      var r := AiSummaryFor(logs, user, Some(start), Some(end));
      (r == Ok(NoLogs(NoLogsSummary)) <==> forall i :: 0 <= i < |logs| ==> !InRange(logs[i], user, from, to)) &&
      (r != Ok(NoLogs(NoLogsSummary)) ==>
         r == Ok(AskModel(PromptHead + LogsText(LogsInRange(logs, user, from, to)) + PromptTail)))
  {
    var from := ParseDay(start).value;
    var to := ParseDay(end).value;
    assert ParseDay(start) == Some(from) && ParseDay(end) == Some(to);
    assert !Falsy(Some(start)) && !Falsy(Some(end));
    var sel := LogsInRange(logs, user, from, to);
    assert AiSummaryFor(logs, user, Some(start), Some(end)) ==
      (if |sel| == 0 then Ok(NoLogs(NoLogsSummary)) else Ok(AskModel(PromptHead + LogsText(sel) + PromptTail)));
    LogsInRangeSpec(logs, user, from, to);
    if |sel| == 0 {
      forall i | 0 <= i < |logs| ensures !InRange(logs[i], user, from, to) {
        assert logs[i] !in sel;
      }
    } else {
      assert sel[0] in logs && InRange(sel[0], user, from, to);
      var k :| 0 <= k < |logs| && logs[k] == sel[0];
    }
  }

  /** With both bounds read as days (each from the query, else the body), the
      fixed summary comes back exactly when no log of the user falls in range;
      otherwise the prompt embeds the range's text between the fixed head and tail. */
  lemma AiSummaryInRange(logs: seq<WorkLog>, user: UserId, qs: Option<string>, bs: Option<string>,
                         qe: Option<string>, be: Option<string>)
    requires UniqueUserDay(logs)
    requires !Falsy(OrElse(qs, bs)) && IsDateText(OrElse(qs, bs).value)
    requires !Falsy(OrElse(qe, be)) && IsDateText(OrElse(qe, be).value)
    ensures var from := ParseDay(OrElse(qs, bs).value).value; var to := ParseDay(OrElse(qe, be).value).value;
      var r := AiSummary(logs, user, qs, bs, qe, be);
      (r == Ok(NoLogs(NoLogsSummary)) <==> forall i :: 0 <= i < |logs| ==> !InRange(logs[i], user, from, to)) &&
      (r != Ok(NoLogs(NoLogsSummary)) ==>
         r == Ok(AskModel(PromptHead + LogsText(LogsInRange(logs, user, from, to)) + PromptTail)))
  {
    AiSummaryForRange(logs, user, OrElse(qs, bs).value, OrElse(qe, be).value);
    assert OrElse(qs, bs) == Some(OrElse(qs, bs).value);
    assert OrElse(qe, be) == Some(OrElse(qe, be).value);
  }
}
