# Work-log tracker: a verified model of its core

WorkLogAI keeps one work log per user and calendar day. Each log holds an
ordered list of tasks, and each task has content, tags and a creation time.
The Express/MongoDB backend offers these operations:

- upserting a task into the day's log;
- rewriting one task's content;
- the day, range and all-logs queries;
- building export rows and an AI-summary prompt;
- counting, renaming and deleting tags.

The routes that create a log, update a task, and ask for a range or an AI summary check their request against a zod schema first. A failure becomes a single 400 message. The day, summary, all-logs and tag routes take their input unchecked.
The React frontend keeps the day's tasks in a hook and polls a bounded number of
times for tags added after the save. It fills a year-long activity calendar,
edits a task's tag list in a modal, and pages an infinite-scroll feed.

This Dafny project models that core, one module per source file:

- `Common` (common.dfy): JavaScript semantics shared by all: `||` on optional strings, `String.prototype.trim`, `Array.prototype.join`, `find`, `filter`, an insertion sort by an integer key, decimal digit texts.
- `WorkLogModel` (worklog_model.dfy): backend/models/Worklog.js: `Task`, `WorkLog`, the unique (user, day) index, the collection as a class.
- `WorkLogController` (worklog_controller.dfy): backend/controllers/workLog.controller.js.
- `TagsController` (tags_controller.dfy): backend/controllers/tags.controller.js.
- `WorkLogSchema` (worklog_schema.dfy): backend/validators/workLog.schema.js, with zod 3's issue semantics.
- `ValidateMiddleware` (validate_middleware.dfy): backend/middleware/validate.js.
- `UseWorkLogs` (use_work_logs.dfy): frontend/src/hooks/useWorkLogs.ts.
- `UseDashboardStats` (use_dashboard_stats.dfy): frontend/src/hooks/useDashboardStats.ts.
- `DashboardPage` (dashboard.dfy): frontend/src/pages/Dashboard.tsx.
- `FeedPage` (feed.dfy): frontend/src/pages/Feed.tsx.

Modelling choices:

- **The store.** It is `WorkLogModel.Collection`, a class holding the documents in insertion order (`logs`) and a counter standing in for fresh ObjectIds. Its `Valid()` invariant has four parts:
  - unique (user, day) pairs;
  - distinct log ids;
  - distinct task ids;
  - every id below the counter.

  Every controller method that writes keeps `Valid()`. Methods state the new collection through a function of the old one, such as `Upsert`, `SetTaskContent`, `RenamedLogs` or `DeletedLogs`, and the lemmas about those functions carry the properties.
- **Days.** A day is the number yyyymmdd read off its "YYYY-MM-DD" text (`WorkLogModel.Day`). `ParseDay` and `FormatDay` are mutual inverses. The handlers that take a day unchecked (`getLogByDate`, `getSummary`) answer a 500 for a text that is not "YYYY-MM-DD". That matches the source for texts `new Date` cannot read, since Mongoose then throws a cast error. Other texts are under "Left out".
- **Replies.** HTTP replies are `Reply<T>`: `Ok`, `BadRequest(message)` or `ServerError`.
- **Client requests.** The client's API calls are parameters. `None` is a request that threw, and `Some(data)` is its resolved body.
- **The schema.** Each schema is a function from a request to its list of zod issues. Each is proved equal to a field-by-field acceptance predicate.

Where the repository's design notes and the code differ, the model follows the code:

- **Tag enrichment.** The design notes describe a background job that tags a new task. They also describe a "missing days" pass before the AI summary. workLog.controller.js defines neither: `addOrUpdateLog` responds and does nothing more, and `getAiSummary` builds its prompt only from the logs found.
- **Deleting a log.** The design notes say a log is deleted with its last task. The code that would do so (`deleteTask`) is not part of this model.
- **Blank content.** The design notes speak of "non-empty content". The schema's `.min(1)` lets whitespace-only content through, and only the handler's `trim()` check refuses it. `WorkLogSchema.BlankContentPassesSchema` states this.

## Model

| member | source | states |
|---|---|---|
| Common.Trim | frontend/src/hooks/useWorkLogs.ts:47 | the result is an infix of the input with only whitespace cut from either end; it is empty exactly when the input is all whitespace, and otherwise starts and ends with non-whitespace |
| Common.TrimIdempotent | frontend/src/pages/Dashboard.tsx:252-253 | trimming a trimmed text changes nothing, the reason an added tag stays clean |
| Common.NatToString | frontend/src/pages/Feed.tsx:51 | the page number's decimal text is non-empty and all digits |
| Common.NatToStringValue | frontend/src/pages/Feed.tsx:51 | that text reads back as the number, without a leading zero unless the number is 0 |
| Common.JoinLength | backend/controllers/workLog.controller.js:187 | the joined text is as long as the parts together plus one separator per neighbouring pair |
| Common.JoinFirst | backend/controllers/workLog.controller.js:187 | `join(sep)` of two or more parts is the first part, the separator, then the join of the rest |
| Common.JoinConcat | backend/controllers/workLog.controller.js:35-37 | joining two non-empty lists is joining each and gluing the halves with one separator |
| Common.FirstIndex | frontend/src/hooks/useDashboardStats.ts:27 | `find`: the index found satisfies the predicate and no earlier one does; none is found only when no element satisfies it |
| Common.Filter | backend/controllers/workLog.controller.js:92 | MongoDB's `find` by filter: exactly the elements that pass, each from the input |
| Common.SortBy | backend/controllers/tags.controller.js:22 | `$sort`: the result is ordered by the key and is a permutation of the input |
| Common.NoRepeatsPermutation | backend/controllers/workLog.controller.js:92 | a permutation of a list with no repeats has none either |
| WorkLogModel.ParseDay | backend/controllers/workLog.controller.js:108 | a text reads as a day exactly when it has the YYYY-MM-DD shape |
| WorkLogModel.FormatDay | backend/controllers/workLog.controller.js:185 | a stored day prints in the YYYY-MM-DD shape |
| WorkLogModel.DayTextRoundTrip | backend/controllers/workLog.controller.js:108-117 | a YYYY-MM-DD text read as a day prints back as the same text |
| WorkLogModel.DayRoundTrip | backend/controllers/workLog.controller.js:185 | a day printed and read back is the same day |
| WorkLogModel.SameKeysKeepInvariant | backend/models/Worklog.js:27 | an update that keeps ids, owners, days and task positions keeps the unique-index invariant |
| WorkLogModel.UserDayDetermines | backend/models/Worklog.js:27 | under the unique index, two entries with the same user and day are the same entry |
| WorkLogModel.Collection.constructor | backend/models/Worklog.js:3-29 | an empty collection satisfies the invariant |
| WorkLogModel.Collection.NewObjectId | backend/models/Worklog.js:16-21 | a fresh id is above every id in use, and the invariant holds |
| WorkLogController.UpsertIntoExisting | backend/controllers/workLog.controller.js:73-77 | on an existing (user, day) log the task is appended at the end, earlier tasks, id, owner, day and createdAt stay, updatedAt is now, and no other log changes |
| WorkLogController.UpsertCreates | backend/controllers/workLog.controller.js:73-77 | without one, a new log holding exactly that task, both timestamps now, is added at the end |
| WorkLogController.UpsertKeepsInvariant | backend/models/Worklog.js:27 | the upsert with fresh ids keeps (user, day) pairs unique and all ids distinct |
| WorkLogController.AddOrUpdateLog | backend/controllers/workLog.controller.js:64-83 | a missing date or content, or a blank content, gives 400 with the store unchanged; a non-date text gives 500 unchanged; otherwise the store becomes the upsert of the untrimmed content and the reply is the updated log |
| WorkLogController.SetTaskContentTargets | backend/controllers/workLog.controller.js:212-227 | with distinct ids the update rewrites exactly the addressed task's content in the addressed log and returns that log |
| WorkLogController.SetTaskContentMissing | backend/controllers/workLog.controller.js:217-222 | when no log holds the (log id, task id) pair nothing changes and the reply is null |
| WorkLogController.SetTaskContentKeepsTags | backend/controllers/workLog.controller.js:217-221 | every id, owner, day, task position, tag list and task createdAt stays as it was, whatever the body sends |
| WorkLogController.UpdateTask | backend/controllers/workLog.controller.js:212-227 | the store becomes the positional update's result, the reply is the updated log or null, and the invariant holds |
| WorkLogController.UpdateOwnTask | backend/controllers/workLog.controller.js:212-227 | the corrected update on the store: the new state is `SetOwnTask`'s, and the invariant holds |
| WorkLogController.SetOwnTaskSparesOthers | backend/controllers/workLog.controller.js:217-221 | the corrected update never touches another user's log and keeps all keys |
| WorkLogController.SetOwnTaskStoresTags | backend/controllers/workLog.controller.js:217-221 | the corrected update stores both the content and the tags sent for the owner's task |
| WorkLogController.UpdateTaskAsWrittenCounterexample | backend/controllers/workLog.controller.js:217-221 | as written, any user's request rewrites user 1's task and drops the sent tags; the corrected update refuses user 2 and stores the tags for user 1 |
| WorkLogController.GetLogByDateSpec | backend/controllers/workLog.controller.js:103-123 | the reply is the user's log of that day exactly when it exists, and the `{ tasks: [] }` placeholder exactly when there is none |
| WorkLogController.OwnLogsSpec | backend/controllers/workLog.controller.js:92 | `find({ userId })` yields exactly the user's logs, without repeats |
| WorkLogController.RangeLogsSpec | backend/controllers/workLog.controller.js:140-146 | the date filter yields exactly the user's logs with from ≤ date ≤ to |
| WorkLogController.SortedOneUser | backend/controllers/workLog.controller.js:92 | sorting one user's logs keeps exactly those logs, and no two share a day |
| WorkLogController.LogsInRangeSpec | backend/controllers/workLog.controller.js:140-146 | the range query returns exactly the user's logs within [from, to], in strictly ascending date order |
| WorkLogController.GetAllLogsSpec | backend/controllers/workLog.controller.js:88-97 | all and only the user's logs, in strictly descending date order |
| WorkLogController.GetLogsByRangeSpec | backend/controllers/workLog.controller.js:129-152 | 400 exactly when `from` or `to` is missing; two day texts give the logs in range |
| WorkLogController.RowDateNamesDay | backend/controllers/workLog.controller.js:185 | a row's date cell is a YYYY-MM-DD text naming the log's own day |
| WorkLogController.SummaryLogsUnbounded | backend/controllers/workLog.controller.js:164-170 | without both bounds the export covers all and only the user's logs, oldest first |
| WorkLogController.GetSummary | backend/controllers/workLog.controller.js:159-206 | one row per selected log in their order, each the log's day text and its contents joined by ", "; an unreadable bound gives 500 |
| WorkLogController.LogsTextConcat | backend/controllers/workLog.controller.js:35-37 | the text of a range is its parts' texts one blank line apart |
| WorkLogController.LogBlockMatchesRow | backend/controllers/workLog.controller.js:35-37 | a log's prompt block shows the same date and tasks cells as its export row |
| WorkLogController.AiSummaryMissingBound | backend/controllers/workLog.controller.js:18-24 | 400 exactly when a bound is missing from both the query and the body |
| WorkLogController.AiSummaryForRange | backend/controllers/workLog.controller.js:26-39 | with two day bounds, the fixed "No logs found" summary exactly when no log of the user is in range, otherwise the prompt wraps that range's text |
| WorkLogController.AiSummaryInRange | backend/controllers/workLog.controller.js:15-39 | the same for bounds read from the query, else the body |
| TagsController.CountConcat | backend/controllers/tags.controller.js:16-21 | counts add up across concatenation |
| TagsController.CountPositive | backend/controllers/tags.controller.js:16-21 | a value counts at least once exactly when it occurs |
| TagsController.UnwindConcat | backend/controllers/tags.controller.js:14-15 | unwinding a concatenation is concatenating the unwinds |
| TagsController.OtherUsersDoNotCount | backend/controllers/tags.controller.js:12 | another user's log adds nothing to any tag's count |
| TagsController.Dedup | backend/controllers/tags.controller.js:16-21 | the group keys: no repeats, and exactly the values present |
| TagsController.GetAllTagsSpec | backend/controllers/tags.controller.js:11-23 | one group per tag the user has used, whose count is its occurrences across the user's tasks, at least 1; no tag twice; counts non-increasing |
| TagsController.SortedGroups | backend/controllers/tags.controller.js:22 | the sorted groups keep distinct keys, exact counts, and non-increasing order |
| TagsController.GroupMembership | backend/controllers/tags.controller.js:16-21 | a tag has a group exactly when it occurs |
| TagsController.TaskTagsMembership | backend/controllers/tags.controller.js:49 | `"tasks.tags": t` matches exactly when some task carries `t` |
| TagsController.RenameInConcat | backend/controllers/tags.controller.js:50-53 | renaming distributes over concatenation |
| TagsController.RenameInAbsent | backend/controllers/tags.controller.js:50-53 | a list without the old tag is left as it is |
| TagsController.TaskTagsRenamed | backend/controllers/tags.controller.js:50 | `tasks.$[]` renames in every task |
| TagsController.UnwindRenamed | backend/controllers/tags.controller.js:48-54 | the user's tags after the update are the old ones with every old tag replaced |
| TagsController.CountRenameIn | backend/controllers/tags.controller.js:50-53 | after renaming, the old tag counts 0, the new one gains its uses, all others keep theirs |
| TagsController.RenameCounts | backend/controllers/tags.controller.js:48-54 | the same for the tag tally of the user's logs |
| TagsController.RenameKeepsShape | backend/controllers/tags.controller.js:48-54 | documents, tasks, ids, contents, tag-list lengths and other users' logs stay in place |
| TagsController.RenamedTagDisappears | backend/controllers/tags.controller.js:48-54 | after a rename to a different name the old tag is gone from GET /tags |
| TagsController.RenameTag | backend/controllers/tags.controller.js:36-60 | a missing tag gives 400 with nothing changed; otherwise every occurrence is renamed in the user's logs and the reply carries the matched count |
| TagsController.RemoveAllConcat | backend/controllers/tags.controller.js:75 | `$pull` distributes over concatenation |
| TagsController.RemoveAllAbsent | backend/controllers/tags.controller.js:75 | a list without the tag is left as it is |
| TagsController.CountRemoveAll | backend/controllers/tags.controller.js:75 | after the pull the tag counts 0 and every other value keeps its count |
| TagsController.TaskTagsPulled | backend/controllers/tags.controller.js:75 | `tasks.$[]` pulls from every task |
| TagsController.UnwindDeleted | backend/controllers/tags.controller.js:73-76 | the user's tags after the update are the old ones without the tag |
| TagsController.DeleteCounts | backend/controllers/tags.controller.js:73-76 | after a delete the tag has no uses and every other tag keeps its count |
| TagsController.DeletedTagDisappears | backend/controllers/tags.controller.js:73-76 | the deleted tag is gone from GET /tags |
| TagsController.RemoveAllRemoves | backend/controllers/tags.controller.js:75 | no copy survives the pull |
| TagsController.DeleteIdempotent | backend/controllers/tags.controller.js:73-76 | a second delete matches nothing and changes nothing, not even a timestamp |
| TagsController.NoMatchCount | backend/controllers/tags.controller.js:73-74 | with no log carrying the tag the matched count is 0 |
| TagsController.DeleteKeepsShape | backend/controllers/tags.controller.js:73-76 | documents, tasks, ids, contents and other users' logs stay in place |
| TagsController.DeleteTag | backend/controllers/tags.controller.js:66-82 | an empty tag gives 400 with nothing changed; otherwise every occurrence is pulled from the user's logs and the reply carries the matched count |
| WorkLogSchema.CheckFieldsSpec | backend/validators/workLog.schema.js:3-49 | an object passes a field list exactly when each field is a string passing its check or an absent optional field; it aborts exactly on a wrong-typed field |
| WorkLogSchema.CheckItemsSpec | backend/validators/workLog.schema.js:17 | `z.array(z.string())` passes exactly when every item is a string |
| WorkLogSchema.CreateLogSpec | backend/validators/workLog.schema.js:3-8 | the create schema passes exactly a date-shaped `date` and a non-empty `content` |
| WorkLogSchema.UpdateTaskSpec | backend/validators/workLog.schema.js:10-19 | non-empty `logId`, `taskId` and `content`, and `tags` absent or an array of strings |
| WorkLogSchema.DateRangeSpec | backend/validators/workLog.schema.js:21-38 | each present field well formed, and `from` present exactly when `to` is |
| WorkLogSchema.AiSummarySpec | backend/validators/workLog.schema.js:40-49 | every present `start`/`end`, in body and query, is date-shaped; all may be absent |
| WorkLogSchema.LoneFromIsRefused | backend/validators/workLog.schema.js:28-37 | a lone `from` draws exactly the refinement's issue, at path query.query |
| WorkLogSchema.ShapeOnlyDate | backend/validators/workLog.schema.js:5 | "2024-13-99" passes: only the shape is checked |
| WorkLogSchema.BlankContentPassesSchema | backend/validators/workLog.schema.js:6 | whitespace-only content passes the schema though it trims to "" |
| ValidateMiddleware.FallbackAgrees | backend/middleware/validate.js:16-23 | the fallback's parsed array yields the same message as the issue list |
| ValidateMiddleware.ValidateSpec | backend/middleware/validate.js:4-36 | the request goes on exactly when the schema finds no issue; otherwise 400 "Validation failed. " with the issues joined by ", " |
| ValidateMiddleware.CreateLogGate | backend/middleware/validate.js:4-11 | POST /worklogs reaches its handler exactly when the create schema accepts it |
| ValidateMiddleware.DateRangeGate | backend/middleware/validate.js:4-11 | a GET /worklogs/range query reaches `getLogsByRange` exactly when the range schema accepts it |
| ValidateMiddleware.FallbackVerbatim | backend/middleware/validate.js:24-32 | a ZodError whose message is not a JSON array gives 400 "Validation failed. " followed by the message unchanged |
| ValidateMiddleware.ForwardsOtherErrors | backend/middleware/validate.js:34 | an error that is not a ZodError goes to `next(err)` and produces no validation reply |
| ValidateMiddleware.UpdateTaskGate | backend/middleware/validate.js:4-11 | the task update reaches its handler exactly when the update schema accepts it |
| ValidateMiddleware.AiSummaryGate | backend/middleware/validate.js:4-11 | the AI summary reaches its handler exactly when its schema accepts it |
| ValidateMiddleware.LoneFromMessage | backend/middleware/validate.js:16-17 | a lone `from` is refused with "Validation failed. query.query: " and the refinement's message |
| UseWorkLogs.WorkLogsState.constructor | frontend/src/hooks/useWorkLogs.ts:13-17 | the initial day or today, no tasks, no log id, not loading |
| UseWorkLogs.WorkLogsState.BeginFetch | frontend/src/hooks/useWorkLogs.ts:19-24 | no day, no request; a foreground fetch raises `loading`, a background one leaves it |
| UseWorkLogs.WorkLogsState.FinishFetch | frontend/src/hooks/useWorkLogs.ts:26-39 | a reply replaces tasks and log id; an error clears them only in the foreground; only the foreground lowers `loading` |
| UseWorkLogs.WorkLogsState.FetchLogs | frontend/src/hooks/useWorkLogs.ts:19-40 | the whole fetch: result `data.tasks \|\| []`, and the state effects above |
| UseWorkLogs.WorkLogsState.AddTask | frontend/src/hooks/useWorkLogs.ts:46-92 | blank content sends nothing and changes nothing; otherwise the trimmed content goes out with the day or today; success replaces tasks and log id and resolves true only when there is a task to poll |
| UseWorkLogs.WorkLogsState.PollTags | frontend/src/hooks/useWorkLogs.ts:69-86 | between 1 and 5 fetches; none before the last shows the task tagged, and stopping early means the last one did; the tasks and log id left are those of the latest fetch that did not throw, or the old ones when every fetch threw |
| UseWorkLogs.LastReply | frontend/src/hooks/useWorkLogs.ts:26-36 | the latest arrived reply among the first n attempts, absent exactly when none arrived |
| UseWorkLogs.WorkLogsState.UpdateTask | frontend/src/hooks/useWorkLogs.ts:94-111 | nothing is sent without trimmed content, a log id and a task id; else the PUT carries content and tags, and only a non-null reply replaces the tasks and resolves true |
| UseWorkLogs.PollerGivesUp | frontend/src/hooks/useWorkLogs.ts:69-74 | when tags never arrive the poller makes exactly 5 fetches |
| UseWorkLogs.PollerStopsAtFirst | frontend/src/hooks/useWorkLogs.ts:76-83 | when fetch j is the first to show tags, exactly j + 1 fetches are made |
| UseWorkLogs.NoDayNoTags | frontend/src/hooks/useWorkLogs.ts:20 | without a day the fetch yields [] and sees no tags |
| UseDashboardStats.DaysFromSorted | frontend/src/hooks/useDashboardStats.ts:22 | the days from a month on are strictly increasing and after that month's start |
| UseDashboardStats.DaysFromMembers | frontend/src/hooks/useDashboardStats.ts:22 | they are exactly the calendar days of those months |
| UseDashboardStats.YearDaysSpec | frontend/src/hooks/useDashboardStats.ts:19-22 | January 1 to December 31, 366 days in a leap year and 365 otherwise, strictly increasing, exactly the calendar days |
| UseDashboardStats.LastDay | frontend/src/hooks/useDashboardStats.ts:21 | the last day is December 31 |
| UseDashboardStats.FillYearSpec | frontend/src/hooks/useDashboardStats.ts:24-32 | one entry per day in order; count and level from the first record of that date, else 0 and 0 |
| UseDashboardStats.FillYearIgnoresOtherDates | frontend/src/hooks/useDashboardStats.ts:24-32 | a record dated outside the year leaves no entry |
| UseDashboardStats.YearTextsReadBack | frontend/src/hooks/useDashboardStats.ts:25 | each day text reads back as its day |
| UseDashboardStats.FilledYearInOrder | frontend/src/hooks/useDashboardStats.ts:19-33 | the filled year has 365 or 366 entries from January 1 to December 31 in calendar order |
| UseDashboardStats.DashboardStats.constructor | frontend/src/hooks/useDashboardStats.ts:12-13 | no stats, loading |
| UseDashboardStats.DashboardStats.FetchDone | frontend/src/hooks/useDashboardStats.ts:33-38 | the filled year on success, one zero entry for today on error, not loading either way |
| DashboardPage.WithTagSpec | frontend/src/pages/Dashboard.tsx:252-253 | either the trimmed input, non-empty and new, is appended and the box cleared, or nothing changes; a clean tag list stays clean |
| DashboardPage.DropIndexSpec | frontend/src/pages/Dashboard.tsx:260 | the filter drops exactly the entry at the index and keeps the rest |
| DashboardPage.WithoutIndexSpec | frontend/src/pages/Dashboard.tsx:260 | removing tag i deletes exactly index i and keeps the order; an index past the end removes nothing |
| DashboardPage.WithoutIndexKeepsClean | frontend/src/pages/Dashboard.tsx:260 | a removal keeps a clean list clean |
| DashboardPage.AppendTranscriptSpec | frontend/src/pages/Dashboard.tsx:47-49 | a transcript goes after the content and one space, or becomes the content when it is empty |
| DashboardPage.DashboardState.constructor | frontend/src/pages/Dashboard.tsx:46-65 | empty entry box, closed modal, empty edit fields, no stats |
| DashboardPage.DashboardState.OpenEditModal | frontend/src/pages/Dashboard.tsx:118-124 | copies the task's id and content, its tags or [], clears the new-tag input, opens the modal |
| DashboardPage.DashboardState.AddEditTag | frontend/src/pages/Dashboard.tsx:252-253 | the tag list and input become `WithTag`'s |
| DashboardPage.DashboardState.RemoveEditTag | frontend/src/pages/Dashboard.tsx:260 | the tag list loses index i |
| DashboardPage.DashboardState.Transcribed | frontend/src/pages/Dashboard.tsx:47-49 | the content becomes the transcript appended |
| DashboardPage.DashboardState.HandleAddTask | frontend/src/pages/Dashboard.tsx:97-100 | the box clears exactly when it was already empty or the save resolved true; otherwise it keeps its content; the hook's tasks and log id become the saved log's, and stay as they were when the content is blank or the save threw |
| DashboardPage.DashboardState.HandleUpdateTask | frontend/src/pages/Dashboard.tsx:126-129 | the modal closes only when the update resolves true; the edit goes out exactly when the guard passes, to the current log's task path with the edited content and tags; the hook's tasks become the reply's, and stay as they were when nothing was sent or the reply was not a log |
| DashboardPage.DashboardState.StatsFetched | frontend/src/pages/Dashboard.tsx:71-95 | the same fill as the hook on success, one zero entry for today on error |
| FeedPage.RequestUrlSpec | frontend/src/pages/Feed.tsx:51-54 | the URL reads back as the page number and `&limit=10`, followed by `&date=` and the day exactly when a filter is set |
| FeedPage.PagesConcatenate | frontend/src/pages/Feed.tsx:62 | pages fetched in order 1, 2, … leave the feed holding their batches in page order, whatever it held before |
| FeedPage.FeedState.constructor | frontend/src/pages/Feed.tsx:18-27 | no logs, page 1, more to come, not loading, no filter, no observer |
| FeedPage.StaleReplyOrder | frontend/src/pages/Feed.tsx:62 | after a stale request, the order of the replies decides: a later page's batch landing after page 1's is appended to it, landing first it is replaced |
| FeedPage.FeedState.SetDate | frontend/src/pages/Feed.tsx:104 | the filter cell takes the picked value; React sees a change exactly unless the filter stays cleared |
| FeedPage.FeedState.ResetEffect | frontend/src/pages/Feed.tsx:40-44 | logs cleared, page 1, more to come |
| FeedPage.FeedState.ChangeDate | frontend/src/pages/Feed.tsx:40-72 | a filter change ends with no logs, page 1 and a fetch in flight; from page 1 it requests page 1 under the new filter, from page p ≠ 1 it first requests page p under the new filter and then page 1; a filter that stays cleared changes nothing |
| FeedPage.FeedState.RefCleared | frontend/src/pages/Feed.tsx:28-36 | an earlier ref called with null drops the live observer unless its render was loading |
| FeedPage.FeedState.BeginFetch | frontend/src/pages/Feed.tsx:28-54 | `loading` rises and the URL is built from the current page and filter; when `loading` rises the live observer is dropped, so no observer is live during the fetch |
| FeedPage.FeedState.CompleteFetch | frontend/src/pages/Feed.tsx:56-68 | a page-1 batch replaces the logs and a later one appends; `hasMore` is false exactly for an empty batch; an error changes neither; `loading` falls |
| FeedPage.FeedState.AttachObserver | frontend/src/pages/Feed.tsx:28-37 | nothing is attached while loading; otherwise the observer captures the current `hasMore` |
| FeedPage.FeedState.Intersect | frontend/src/pages/Feed.tsx:31-33 | the page advances by one exactly when the observer's captured `hasMore` is true, so never while a fetch is in flight |

## Left out

- The language-model call in `getAiSummary` (backend/controllers/workLog.controller.js:44-51) is a foreign network API. The model stops at the prompt (`AskModel`).
- The Excel workbook and its streaming (backend/controllers/workLog.controller.js:173-201) are a library file format. Only the rows are modelled.
- The database connection, server start-up, Express wiring and rate limiter are I/O and process plumbing. backend/routes/worklog.routes.js:18-21 imports `getWorklogStats`, `searchLogs`, `getStandup` and `deleteTask` from workLog.controller.js, but that file defines none of them, so they are not part of this model. backend/app.js:12-14 mounts only `/api/auth` and `/api/worklogs`, so backend/routes/tags.routes.js is never served: the GET /tags, PUT /tags/rename and DELETE /tags/:tag named in this README are the routes that file declares, and `TagsController` models their handlers as tags.controller.js defines them.
- Dates are left to JavaScript in the source, and the model stands in for them:
  - JavaScript `Date` parsing and the local-time `setHours` window in `getLogByDate` depend on the host time zone. A day is its yyyymmdd number, and the window is that one day.
  - Month and day validity on the server (e.g. "2024-13-99" reaching `new Date`) is not modelled.
  - date-fns `eachDayOfInterval`/`format` are replaced by the Gregorian calendar for years 0–9999.
- `WorkLogModel.Task`: Mongoose strict mode would strip `tags`, which the schema does not declare. The model keeps `tags` as a field, as every controller assumes. A created task gets an empty tag list.
- Concurrency is not modelled, including two upserts racing on the unique index (E11000). Each operation is one atomic step.
- Request fields that are not strings are left out where no schema guards the route: the `oldTag`/`newTag` body of PUT /tags/rename and the query of GET /worklogs and /worklogs/summary. The four validated routes (backend/routes/worklog.routes.js:27, :29-31, :33) refuse them, and `WorkLogSchema` models that.
- Express bodies that are JSON arrays are left out on every route. A request body is a map from field names to values in the model (`WorkLogSchema.Fields`), so an array cannot be represented, and zod's "Expected object, received array" issue at `body` on the validated routes is not modelled.
- `WorkLogController.GetLogByDate` and `WorkLogController.GetSummary` answer `ServerError` for every day text that is not "YYYY-MM-DD". `new Date` also reads other forms, such as "2024-5-1" or "May 1, 2024"; for those the source answers 200 with that day's log or rows. JavaScript's date-string grammar is not modelled.
- The ids in the path are ObjectIds in the model. A malformed id string, which Mongoose answers with a cast error (500), is left out.
- zod's issue text for type mismatches ("Required", "Expected string, received number") is modelled. Zod 4's differences are not. The fallback branch of `validate` only ever sees a message parsed by the caller (`ParsedMessage`), so serialising issues to JSON is left out.
- `TagsController.RenameTag` and `TagsController.DeleteTag` report `matchedCount`. `modifiedCount` and the rest of MongoDB's update result are left out.
- `TagsController.GetAllTags` fixes one order among tags with equal counts. MongoDB leaves that order open, and `GetAllTagsSpec` states only non-increasing counts.
- `TagsController.DeleteTag`: Express never routes an empty `:tag`, so its `tag == ""` branch stands for the `!tag` guard.
- The poller's 3000 ms timers and React's scheduling are left out. Only the attempt count and the refetches remain (`UseWorkLogs.WorkLogsState.PollTags`).
- During polling the user does not change the selected day. The poller refetches the day it started with.
- Browser APIs are left out: speech recognition (only its transcript callback is modelled), IntersectionObserver internals (only the captured `hasMore` and the callback), toasts and console logging.
- `FeedPage.FeedState.SetDate`: React compares `Date` objects by identity. Any newly picked date counts as a change, so `ChangeDate` resets unless the filter stays cleared.
- `FeedPage` and `WorkLogController.GetAllLogs` are modelled apart. The feed's GET /worklogs?page=N&limit=10[&date=…] reaches `getAllLogs` (backend/routes/worklog.routes.js:40), which reads neither `page`, `limit` nor `date` and returns the user's whole list. Every later page therefore appends that list again, and the filter has no effect. No member states this combination.
- Everything else in the frontend is presentation or auth and is left out: components, other pages, auth context, search modals.

## Findings

| source | as written | input that shows it | evidently intended | confidence | as-written member | corrected member |
|---|---|---|---|---|---|---|
| backend/controllers/workLog.controller.js:217-221 | the update filters on `_id` and `tasks._id` only, so any signed-in user can overwrite any user's task | user 2 sends PUT /worklogs/task/7/8 with content "edited" for log 7 of user 1; task 8's content becomes "edited" | the filter also carries `userId: req.user.id`, and another user's request matches nothing (null) | not executed; high | WorkLogController.UpdateTaskAsWrittenCounterexample (on WorkLogController.SetTaskContent, used by WorkLogController.UpdateTask) | WorkLogController.SetOwnTask, with WorkLogController.SetOwnTaskSparesOthers and WorkLogController.UpdateOwnTask |
| backend/controllers/workLog.controller.js:216-221 | only `tasks.$.content` is set; the `tags` the edit modal sends (frontend/src/hooks/useWorkLogs.ts:97-103) and the schema validates are dropped | the owner sends content "edited" with tags ["BugFix"] for a task with no tags; the task's tags stay [] | `tasks.$.tags` is set as well when the body carries tags | not executed; medium | WorkLogController.UpdateTaskAsWrittenCounterexample, WorkLogController.SetTaskContentKeepsTags | WorkLogController.SetOwnTaskStoresTags (on WorkLogController.SetOwnTask) |
