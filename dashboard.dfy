/** frontend/src/pages/Dashboard.tsx: the entry box and its speech input, the
    edit modal's fields and tag list, the handlers that clear or close only on
    success, and the page's own copy of the stats fill. */
module DashboardPage {
  import opened Common
  import opened UseWorkLogs
  import opened UseDashboardStats

  /** The tag list and the new-tag input together. */
  datatype TagInput = TagInput(tags: seq<string>, input: string)

  /** The "+" button and Enter: append the trimmed input when it is non-empty
      and new, and clear the input only then. */
  function WithTag(tags: seq<string>, input: string): TagInput
  {
    var t := Trim(input);
    if t != [] && t !in tags then TagInput(tags + [t], "") else TagInput(tags, input)
  }

  /** Tags without repeats, none empty and none with outer whitespace: what
      the modal's own additions keep. */
  ghost predicate CleanTags(tags: seq<string>) {
    NoRepeats(tags) && forall i :: 0 <= i < |tags| ==> tags[i] != [] && Trim(tags[i]) == tags[i]
  }

  /** Adding a tag either appends exactly the trimmed input and clears the box,
      or changes nothing, and it keeps a clean list clean. */
  lemma WithTagSpec(tags: seq<string>, input: string)
    ensures var r := WithTag(tags, input);
      (r.tags == tags + [Trim(input)] && r.input == "" && Trim(input) != [] && Trim(input) !in tags) ||
      (r == TagInput(tags, input) && (Trim(input) == [] || Trim(input) in tags))
    ensures CleanTags(tags) ==> CleanTags(WithTag(tags, input).tags)
  {
    var t := Trim(input);
    if t != [] && t !in tags && CleanTags(tags) {
      TrimIdempotent(input);
      var r := tags + [t];
      forall i, j | 0 <= i < j < |r| ensures r[i] != r[j] {
        if j == |tags| {
          assert r[i] == tags[i];
        } else {
          assert r[i] == tags[i] && r[j] == tags[j];
        }
      }
    }
  }

  /** `prev.filter((_, idx) => idx !== i)`, walking the list from index `from`. */
  function DropIndex(s: seq<string>, i: nat, from: nat): seq<string>
  {
    if s == [] then [] else (if from == i then [] else [s[0]]) + DropIndex(s[1..], i, from + 1)
  }

  function WithoutIndex(tags: seq<string>, i: nat): seq<string>
  {
    DropIndex(tags, i, 0)
  }

  lemma {:induction false} DropIndexSpec(s: seq<string>, i: nat, from: nat)
    ensures from <= i < from + |s| ==> DropIndex(s, i, from) == s[..i - from] + s[i - from + 1..]
    ensures !(from <= i < from + |s|) ==> DropIndex(s, i, from) == s
  {
    if s != [] {
      DropIndexSpec(s[1..], i, from + 1);
      if from == i {
        assert s[i - from + 1..] == s[1..];
        if i + 1 < from + |s| {
          assert DropIndex(s[1..], i, from + 1) == s[1..];
        }
      } else if from < i < from + |s| {
        assert s[..i - from] == [s[0]] + s[1..][..i - from - 1];
        assert s[i - from + 1..] == s[1..][i - from..];
      } else {
        assert s == [s[0]] + s[1..];
      }
    }
  }

  /** Removing tag `i` deletes exactly that entry and keeps the rest in order;
      an index past the end removes nothing. */
  lemma WithoutIndexSpec(tags: seq<string>, i: nat)
    ensures i < |tags| ==> WithoutIndex(tags, i) == tags[..i] + tags[i + 1..] && |WithoutIndex(tags, i)| == |tags| - 1
    ensures i >= |tags| ==> WithoutIndex(tags, i) == tags
  {
    DropIndexSpec(tags, i, 0);
  }

  /** Where entry `k` of the shortened list sat before index `i` was removed. */
  function Skip(k: nat, i: nat): nat {
    if k < i then k else k + 1
  }

  /** A removal keeps a clean list clean. */
  lemma WithoutIndexKeepsClean(tags: seq<string>, i: nat)
    requires CleanTags(tags)
    ensures CleanTags(WithoutIndex(tags, i))
  {
    WithoutIndexSpec(tags, i);
    if i < |tags| {
      var r := tags[..i] + tags[i + 1..];
      forall k | 0 <= k < |r| ensures r[k] == tags[Skip(k, i)] {
      }
      forall a, b | 0 <= a < b < |r| ensures r[a] != r[b] {
        assert r[a] == tags[Skip(a, i)] && r[b] == tags[Skip(b, i)];
      }
      forall k | 0 <= k < |r| ensures r[k] != [] && Trim(r[k]) == r[k] {
        assert r[k] == tags[Skip(k, i)];
      }
    }
  }

  /** The speech callback `prev ? prev + " " + text : text`. */
  function AppendTranscript(prev: string, text: string): string
  {
    if prev != "" then prev + " " + text else text
  }

  /** A transcript goes after the existing content and one space, and becomes
      the content when the box is empty. */
  lemma AppendTranscriptSpec(prev: string, text: string)
    ensures var r := AppendTranscript(prev, text);
      (prev == "" ==> r == text) &&
      (prev != "" ==> |r| == |prev| + 1 + |text| && r[..|prev|] == prev && r[|prev|] == ' ' && r[|prev| + 1..] == text)
  {
  }

  class DashboardState {
    var content: string
    var editOpen: bool
    var editingTaskId: string
    var editContent: string
    var editTags: seq<string>
    var editNewTag: string
    var stats: seq<StatItem>

    constructor ()
      ensures content == "" && !editOpen && editingTaskId == "" && editContent == "" &&
              editTags == [] && editNewTag == "" && stats == []
    {
      content := "";
      editOpen := false;
      editingTaskId := "";
      editContent := "";
      editTags := [];
      editNewTag := "";
      stats := [];
    }

    /** `openEditModal(task)`. */
    method OpenEditModal(task: ClientTask)
      modifies this`editingTaskId, this`editContent, this`editTags, this`editNewTag, this`editOpen
      ensures editingTaskId == task.id && editContent == task.content
      ensures editTags == (if task.tags.Some? then task.tags.value else [])
      ensures editNewTag == "" && editOpen
    {
      editingTaskId := task.id;
      editContent := task.content;
      editTags := if task.tags.Some? then task.tags.value else [];
      editNewTag := "";
      editOpen := true;
    }

    method AddEditTag()
      modifies this`editTags, this`editNewTag
      ensures TagInput(editTags, editNewTag) == WithTag(old(editTags), old(editNewTag))
    {
      var r := WithTag(editTags, editNewTag);
      editTags := r.tags;
      editNewTag := r.input;
    }

    method RemoveEditTag(i: nat)
      modifies this`editTags
      ensures editTags == WithoutIndex(old(editTags), i)
    {
      editTags := WithoutIndex(editTags, i);
    }

    method Transcribed(text: string)
      modifies this`content
      ensures content == AppendTranscript(old(content), text)
    {
      content := AppendTranscript(content, text);
    }

    /** `handleAddTaskWrapper`: the box clears only when `addTask` resolves truthy. */
    method HandleAddTask(hook: WorkLogsState, today: string, saved: Option<LogData>)
      returns (sent: Option<NewEntry>)
      modifies this`content, hook`tasks, hook`currentLogId
      ensures Trim(old(content)) == [] ==> sent.None? && content == old(content)
      ensures Trim(old(content)) != [] ==>
        sent == Some(NewEntry(if hook.date.Some? then hook.date.value else today, Trim(old(content))))
      ensures content == "" <==>
        old(content) == "" || (Trim(old(content)) != [] && saved.Some? && PollTarget(saved.value.tasks).Some?)
      ensures content != "" ==> content == old(content)
      ensures Trim(old(content)) == [] || saved.None? ==>
        hook.tasks == old(hook.tasks) && hook.currentLogId == old(hook.currentLogId)
      ensures Trim(old(content)) != [] && saved.Some? ==>
        hook.tasks == saved.value.tasks && hook.currentLogId == saved.value.id
    {
      var result, pollFor;
      sent, result, pollFor := hook.AddTask(content, today, saved);
      if result == Returned(true) {
        content := "";
      }
    }

    /** `handleUpdateTaskWrapper`: the modal closes only when `updateTask`
        resolves truthy. */
    method HandleUpdateTask(hook: WorkLogsState, reply: Option<Option<LogData>>) returns (sent: Option<TaskEdit>)
      modifies this`editOpen, hook`tasks
      ensures sent.None? ==> editOpen == old(editOpen)
      ensures !editOpen <==> !old(editOpen) || (sent.Some? && reply.Some? && reply.value.Some?)
      ensures sent.Some? <==> !(Trim(editContent) == [] || hook.currentLogId == "" || editingTaskId == "")
      ensures sent.Some? ==>
        sent.value == TaskEdit("/worklogs/task/" + hook.currentLogId + "/" + editingTaskId, editContent, editTags)
      ensures sent.Some? && reply.Some? && reply.value.Some? ==> hook.tasks == reply.value.value.tasks
      ensures !(sent.Some? && reply.Some? && reply.value.Some?) ==> hook.tasks == old(hook.tasks)
    {
      var result;
      sent, result := hook.UpdateTask(editingTaskId, editContent, editTags, reply);
      if result == Returned(true) {
        editOpen := false;
      }
    }

    /** The page's own `fetchStats`: the same fill as the hook, without a loading flag. */
    method StatsFetched(reply: Option<seq<StatItem>>, year: Year, today: string)
      modifies this`stats
      ensures reply.Some? ==> stats == FillYear(YearDayTexts(year), reply.value)
      ensures reply.None? ==> stats == [StatItem(today, 0, 0)]
    {
      stats := if reply.Some? then FillYear(YearDayTexts(year), reply.value) else [StatItem(today, 0, 0)];
    }
  }
}
