/** frontend/src/hooks/useWorkLogs.ts: the dashboard's day state (selected day,
    its tasks, its log id, the loading flag), the fetch that refreshes it, the
    add flow with its bounded tag poller, and the update guard. API replies are
    parameters: `None` is a request that threw. */
module UseWorkLogs {
  import opened Common

  /** A task as the client receives it. */
  datatype ClientTask = ClientTask(id: string, content: string, tags: Option<seq<string>>, createdAt: string)

  /** A GET /worklogs/date/:date body: a log document, or `{ tasks: [] }` without `_id`. */
  datatype DayData = DayData(id: Option<string>, tasks: Option<seq<ClientTask>>)

  /** A saved log document, as POST /worklogs returns it. */
  datatype LogData = LogData(id: string, tasks: seq<ClientTask>)

  /** The body `addTask` posts. */
  datatype NewEntry = NewEntry(date: string, content: string)

  /** A PUT the update sends: its path and body. */
  datatype TaskEdit = TaskEdit(path: string, content: string, tags: seq<string>)

  /** What an async handler resolves to: `undefined`, or a boolean. */
  datatype Resolved = Undefined | Returned(ok: bool)

  const MaxAttempts: nat := 5

  function DayPath(day: string): string {
    "/worklogs/date/" + day
  }

  /** The tasks a fetch resolves to: `data.tasks || []` on success, `[]` otherwise. */
  function Fetched(date: Option<string>, reply: Option<DayData>): seq<ClientTask>
  {
    if date.None? || reply.None? then []
    else if reply.value.tasks.Some? then reply.value.tasks.value else []
  }

  /** The log id a day reply sets: its `_id`, or "" without one. */
  function DayLogId(d: DayData): string
  {
    if d.id.Some? then d.id.value else ""
  }

  /** The latest reply that arrived among attempts `0 .. n-1`; a background
      fetch that throws leaves the state as the previous one set it. */
  function LastReply(replies: nat -> Option<DayData>, n: nat): (r: Option<DayData>)
    ensures r.Some? <==> exists k :: 0 <= k < n && replies(k).Some?
    ensures r.Some? ==> exists k :: 0 <= k < n && replies(k) == r && forall j :: k < j < n ==> replies(j).None?
  {
    if n == 0 then None
    else if replies(n - 1).Some? then replies(n - 1)
    else LastReply(replies, n - 1)
  }

  /** `updatedTasks.find(t => t._id === id)` carries a non-empty tag list. */
  predicate Tagged(tasks: seq<ClientTask>, id: string)
  {
    match FirstIndex(tasks, (t: ClientTask) => t.id == id)
    case Some(i) => tasks[i].tags.Some? && |tasks[i].tags.value| > 0
    case None => false
  }

  /** `newTask ? newTask._id : null`, read as a truthy id. */
  function PollTarget(tasks: seq<ClientTask>): (r: Option<string>)
    ensures r.Some? <==> |tasks| > 0 && tasks[|tasks| - 1].id != ""
    ensures r.Some? ==> r.value == tasks[|tasks| - 1].id
  {
    if |tasks| == 0 || tasks[|tasks| - 1].id == "" then None else Some(tasks[|tasks| - 1].id)
  }

  class WorkLogsState {
    /** The selected day as "yyyy-MM-dd"; `None` when no day is selected. */
    var date: Option<string>
    var tasks: seq<ClientTask>
    var currentLogId: string
    var loading: bool

    /** `useState(initialDate || new Date())` and the empty initial cells. */
    constructor (initial: Option<string>, today: string)
      ensures date == Some(if initial.Some? then initial.value else today)
      ensures tasks == [] && currentLogId == "" && !loading
    {
      date := Some(if initial.Some? then initial.value else today);
      tasks := [];
      currentLogId := "";
      loading := false;
    }

    /** The part of `fetchLogs` before the request: no day, no request; a
        foreground fetch raises `loading`. */
    method BeginFetch(background: bool) returns (path: Option<string>)
      modifies this`loading
      ensures date.None? ==> path.None? && loading == old(loading)
      ensures date.Some? ==> path == Some(DayPath(date.value)) && loading == (old(loading) || !background)
    {
      if date.None? {
        return None;
      }
      if !background {
        loading := true;
      }
      path := Some(DayPath(date.value));
    }

    /** The rest of `fetchLogs`: a reply replaces the tasks and the log id; an
        error clears them only in the foreground; only a foreground fetch
        lowers `loading`. */
    method FinishFetch(background: bool, reply: Option<DayData>) returns (fetched: seq<ClientTask>)
      requires date.Some?
      modifies this`tasks, this`currentLogId, this`loading
      ensures fetched == Fetched(date, reply)
      ensures reply.Some? ==> tasks == fetched && currentLogId == DayLogId(reply.value)
      ensures reply.None? && !background ==> tasks == [] && currentLogId == ""
      ensures reply.None? && background ==> tasks == old(tasks) && currentLogId == old(currentLogId)
      ensures loading == (if background then old(loading) else false)
    {
      if reply.Some? {
        var data := reply.value;
        fetched := if data.tasks.Some? then data.tasks.value else [];
        tasks := fetched;
        currentLogId := DayLogId(data);
      } else {
        fetched := [];
        if !background {
          tasks := [];
          currentLogId := "";
        }
      }
      if !background {
        loading := false;
      }
    }

    /** A whole `fetchLogs(background)` given the reply the request would get. */
    method FetchLogs(background: bool, reply: Option<DayData>) returns (fetched: seq<ClientTask>)
      modifies this`tasks, this`currentLogId, this`loading
      ensures date == old(date)
      ensures fetched == Fetched(date, reply)
      ensures date.None? ==> tasks == old(tasks) && currentLogId == old(currentLogId) && loading == old(loading)
      ensures date.Some? && reply.Some? ==> tasks == fetched && currentLogId == DayLogId(reply.value)
      ensures date.Some? && reply.None? && !background ==> tasks == [] && currentLogId == ""
      ensures background ==> loading == old(loading)
      ensures background && reply.None? ==> tasks == old(tasks) && currentLogId == old(currentLogId)
      ensures date.Some? && !background ==> !loading
    {
      var path := BeginFetch(background);
      if path.None? {
        return [];
      }
      fetched := FinishFetch(background, reply);
    }

    /** `addTask(content)` up to the scheduling of the poller. `saved` is what
        the POST resolves to; the result carries the id the poller watches. */
    method AddTask(content: string, today: string, saved: Option<LogData>)
      returns (sent: Option<NewEntry>, result: Resolved, pollFor: Option<string>)
      modifies this`tasks, this`currentLogId
      ensures Trim(content) == [] ==>
        sent.None? && result == Undefined && pollFor.None? &&
        tasks == old(tasks) && currentLogId == old(currentLogId)
      ensures Trim(content) != [] ==>
        sent == Some(NewEntry(if date.Some? then date.value else today, Trim(content)))
      ensures Trim(content) != [] && saved.None? ==>
        result == Returned(false) && pollFor.None? && tasks == old(tasks) && currentLogId == old(currentLogId)
      ensures Trim(content) != [] && saved.Some? ==>
        tasks == saved.value.tasks && currentLogId == saved.value.id &&
        pollFor == PollTarget(saved.value.tasks) &&
        result == (if pollFor.Some? then Returned(true) else Undefined)
    {
      var trimmed := Trim(content);
      if trimmed == [] {
        return None, Undefined, None;
      }
      var day := if date.Some? then date.value else today;
      sent := Some(NewEntry(day, trimmed));
      match saved
      case None =>
        result := Returned(false);
        pollFor := None;
      case Some(data) =>
        tasks := data.tasks;
        currentLogId := data.id;
        pollFor := PollTarget(data.tasks);
        result := if pollFor.Some? then Returned(true) else Undefined;
    }

    /** `pollTags`: background refetches, one per attempt, stopping after the
        first whose list shows the watched task tagged, and after five at most.
        `replies(k)` is what attempt `k` (from 0) receives. The tasks and log id
        left are those of the latest attempt whose request did not throw. */
    method PollTags(target: string, replies: nat -> Option<DayData>) returns (attempts: nat)
      modifies this`tasks, this`currentLogId, this`loading
      ensures 1 <= attempts <= MaxAttempts
      ensures forall k :: 0 <= k < attempts - 1 ==> !Tagged(Fetched(date, replies(k)), target)
      ensures attempts < MaxAttempts ==> Tagged(Fetched(date, replies(attempts - 1)), target)
      ensures date == old(date) && loading == old(loading)
      ensures date.Some? && LastReply(replies, attempts).Some? ==>
        tasks == Fetched(date, LastReply(replies, attempts)) &&
        currentLogId == DayLogId(LastReply(replies, attempts).value)
      ensures date.None? || LastReply(replies, attempts).None? ==>
        tasks == old(tasks) && currentLogId == old(currentLogId)
    {
      attempts := 0;
      while attempts < MaxAttempts
        invariant attempts <= MaxAttempts
        invariant forall k :: 0 <= k < attempts ==> !Tagged(Fetched(date, replies(k)), target)
        invariant date == old(date) && loading == old(loading)
        invariant date.Some? && LastReply(replies, attempts).Some? ==>
          tasks == Fetched(date, LastReply(replies, attempts)) &&
          currentLogId == DayLogId(LastReply(replies, attempts).value)
        invariant date.None? || LastReply(replies, attempts).None? ==>
          tasks == old(tasks) && currentLogId == old(currentLogId)
      {
        attempts := attempts + 1;
        var updated := FetchLogs(true, replies(attempts - 1));
        if Tagged(updated, target) {
          return;
        }
      }
    }

    /** `updateTask(taskId, content, tags)`: nothing is sent without trimmed
        content, a current log id and a task id. A `null` reply (no such task)
        makes `data.tasks` throw, so it resolves to false like a failed request. */
    method UpdateTask(taskId: string, content: string, tags: seq<string>, reply: Option<Option<LogData>>)
      returns (sent: Option<TaskEdit>, result: Resolved)
      modifies this`tasks
      ensures Trim(content) == [] || currentLogId == "" || taskId == "" ==>
        sent.None? && result == Undefined && tasks == old(tasks)
      ensures !(Trim(content) == [] || currentLogId == "" || taskId == "") ==>
        sent == Some(TaskEdit("/worklogs/task/" + currentLogId + "/" + taskId, content, tags)) &&
        (if reply.Some? && reply.value.Some? then tasks == reply.value.value.tasks && result == Returned(true)
         else tasks == old(tasks) && result == Returned(false))
    {
      if Trim(content) == [] || currentLogId == "" || taskId == "" {
        return None, Undefined;
      }
      sent := Some(TaskEdit("/worklogs/task/" + currentLogId + "/" + taskId, content, tags));
      if reply.Some? && reply.value.Some? {
        tasks := reply.value.value.tasks;
        result := Returned(true);
      } else {
        result := Returned(false);
      }
    }
  }

  /** The poller gives up after five fetches when tags never arrive. */
  lemma PollerGivesUp(date: Option<string>, replies: nat -> Option<DayData>, target: string, attempts: nat)
    requires 1 <= attempts <= MaxAttempts
    requires forall k :: 0 <= k < attempts - 1 ==> !Tagged(Fetched(date, replies(k)), target)
    requires attempts < MaxAttempts ==> Tagged(Fetched(date, replies(attempts - 1)), target)
    requires forall k :: 0 <= k < MaxAttempts ==> !Tagged(Fetched(date, replies(k)), target)
    ensures attempts == MaxAttempts
  {
  }

  /** The poller stops at the first tagged fetch: if attempt `j` is the first to
      see tags, exactly `j + 1` fetches are made. */
  lemma PollerStopsAtFirst(date: Option<string>, replies: nat -> Option<DayData>, target: string,
                           attempts: nat, j: nat)
    requires 1 <= attempts <= MaxAttempts
    requires forall k :: 0 <= k < attempts - 1 ==> !Tagged(Fetched(date, replies(k)), target)
    requires attempts < MaxAttempts ==> Tagged(Fetched(date, replies(attempts - 1)), target)
    requires j < MaxAttempts && Tagged(Fetched(date, replies(j)), target)
    requires forall k :: 0 <= k < j ==> !Tagged(Fetched(date, replies(k)), target)
    ensures attempts == j + 1
  {
  }

  /** Without a day the fetch sends nothing and yields an empty list, so a poller
      on such a state sees no tags. */
  lemma NoDayNoTags(reply: Option<DayData>, target: string)
    ensures Fetched(None, reply) == [] && !Tagged(Fetched(None, reply), target)
  {
  }
}
