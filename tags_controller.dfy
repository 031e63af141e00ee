/** The tag handlers of backend/controllers/tags.controller.js: the tag tally
    aggregation and the two `updateMany` rewrites that rename or delete a tag
    across all of one user's logs. */
module TagsController {
  import opened Common
  import opened WorkLogModel

  const TagsRequired := "Old and New tags are required"
  const TagRenamed := "Tag renamed"
  const TagRequired := "Tag is required"
  const TagDeleted := "Tag deleted"

  // ---------------------------------------------------------------------------
  // Counting and the $unwind stages
  // ---------------------------------------------------------------------------

  /** How many times `t` occurs in `s`. */
  function Count(s: seq<string>, t: string): nat
  {
    if s == [] then 0 else (if s[0] == t then 1 else 0) + Count(s[1..], t)
  }

  lemma {:induction false} CountConcat(a: seq<string>, b: seq<string>, t: string)
    ensures Count(a + b, t) == Count(a, t) + Count(b, t)
  {
    if a == [] {
      assert a + b == b;
    } else {
      assert (a + b)[1..] == a[1..] + b;
      CountConcat(a[1..], b, t);
    }
  }

  lemma {:induction false} CountPositive(s: seq<string>, t: string)
    ensures Count(s, t) >= 1 <==> t in s
  {
    if s != [] {
      CountPositive(s[1..], t);
      assert s == [s[0]] + s[1..];
    }
  }

  /** The tags of a list of tasks, task by task (`$unwind: "$tasks"`, then `"$tasks.tags"`). */
  function TaskTags(tasks: seq<Task>): seq<string>
  {
    if tasks == [] then [] else tasks[0].tags + TaskTags(tasks[1..])
  }

  /** Every tag of every task of the user's logs, in document order. */
  function Unwind(logs: seq<WorkLog>, user: UserId): seq<string>
  {
    if logs == [] then []
    else (if logs[0].userId == user then TaskTags(logs[0].tasks) else []) + Unwind(logs[1..], user)
  }

  /** How often the user has put tag `t` on a task. */
  function Occurrences(logs: seq<WorkLog>, user: UserId, t: string): nat
  {
    Count(Unwind(logs, user), t)
  }

  lemma {:induction false} UnwindConcat(a: seq<WorkLog>, b: seq<WorkLog>, user: UserId)
    ensures Unwind(a + b, user) == Unwind(a, user) + Unwind(b, user)
  {
    if a == [] {
      assert a + b == b;
    } else {
      assert (a + b)[1..] == a[1..] + b;
      UnwindConcat(a[1..], b, user);
    }
  }

  /** Another user's log adds nothing to the tally (`$match: { userId }`). */
  lemma OtherUsersDoNotCount(logs: seq<WorkLog>, l: WorkLog, user: UserId, t: string)
    requires l.userId != user
    ensures Occurrences(logs + [l], user, t) == Occurrences(logs, user, t)
  {
    UnwindConcat(logs, [l], user);
    assert [l][1..] == [];
    assert Unwind([l], user) == [];
    assert Unwind(logs, user) + [] == Unwind(logs, user);
  }

  // ---------------------------------------------------------------------------
  // getAllTags
  // ---------------------------------------------------------------------------

  /** One group of the aggregation: `{ _id: tag, count }`. */
  datatype TagCount = TagCount(tag: string, count: nat)

  /** The distinct values of `s` in order of first appearance. */
  function Dedup(s: seq<string>): (r: seq<string>)
    ensures NoRepeats(r)
    ensures forall x :: x in r <==> x in s
  {
    if s == [] then []
    else
      var d := Dedup(s[..|s| - 1]);
      assert s == s[..|s| - 1] + [s[|s| - 1]];
      if s[|s| - 1] in d then d else d + [s[|s| - 1]]
  }

  /** `$group` with `count: { $sum: 1 }` over the given keys. */
  function Tally(keys: seq<string>, s: seq<string>): (r: seq<TagCount>)
    ensures |r| == |keys| && forall i :: 0 <= i < |r| ==> r[i] == TagCount(keys[i], Count(s, keys[i]))
  {
    seq(|keys|, i requires 0 <= i < |keys| => TagCount(keys[i], Count(s, keys[i])))
  }

  function NegCount(g: TagCount): int { -(g.count as int) }

  function TagsOf(r: seq<TagCount>): (ts: seq<string>)
    ensures |ts| == |r| && forall i :: 0 <= i < |r| ==> ts[i] == r[i].tag
  {
    seq(|r|, i requires 0 <= i < |r| => r[i].tag)
  }

  /** GET /tags: the user's tags with their use counts, most used first
      (MongoDB leaves the order of equal counts open). */
  function GetAllTags(logs: seq<WorkLog>, user: UserId): seq<TagCount>
  {
    var u := Unwind(logs, user);
    SortBy(Tally(Dedup(u), u), NegCount)
  }

  /** One group per tag the user has used, each with its number of uses, no tag
      twice, counts never increasing down the list. */
  lemma GetAllTagsSpec(logs: seq<WorkLog>, user: UserId)
    ensures var r := GetAllTags(logs, user);
      (forall i :: 0 <= i < |r| ==> r[i].count == Occurrences(logs, user, r[i].tag) && r[i].count >= 1) &&
      (forall t :: t in TagsOf(r) <==> Occurrences(logs, user, t) >= 1) &&
      (forall i, j :: 0 <= i < j < |r| ==> r[i].tag != r[j].tag && r[i].count >= r[j].count)
  {
    var u := Unwind(logs, user);
    var g := Tally(Dedup(u), u);
    var r := SortBy(g, NegCount);
    SortedGroups(u, r);
    forall t ensures t in TagsOf(r) <==> Count(u, t) >= 1 {
      GroupMembership(u, r, t);
    }
  }

  /** Every group of a sorted tally is one of the tally's groups. */
  lemma SortedGroups(u: seq<string>, r: seq<TagCount>)
    requires r == SortBy(Tally(Dedup(u), u), NegCount)
    ensures forall i :: 0 <= i < |r| ==> r[i].count == Count(u, r[i].tag) && r[i].count >= 1
    ensures forall i, j :: 0 <= i < j < |r| ==> r[i].tag != r[j].tag && r[i].count >= r[j].count
  {
    var d := Dedup(u);
    var g := Tally(d, u);
    forall i | 0 <= i < |r| ensures r[i].count == Count(u, r[i].tag) && r[i].count >= 1 {
      assert r[i] in multiset(g);
      var k :| 0 <= k < |g| && g[k] == r[i];
      CountPositive(u, d[k]);
    }
    NoRepeatsPermutation(g, r);
    forall i, j | 0 <= i < j < |r| ensures r[i].tag != r[j].tag && r[i].count >= r[j].count {
      assert NegCount(r[i]) <= NegCount(r[j]);
    }
  }

  lemma GroupMembership(u: seq<string>, r: seq<TagCount>, t: string)
    requires r == SortBy(Tally(Dedup(u), u), NegCount)
    ensures t in TagsOf(r) <==> Count(u, t) >= 1
  {
    var d := Dedup(u);
    var g := Tally(d, u);
    CountPositive(u, t);
    if t in u {
      var k :| 0 <= k < |d| && d[k] == t;
      assert g[k] in multiset(r);
      var i :| 0 <= i < |r| && r[i] == g[k];
      assert TagsOf(r)[i] == t;
    }
    if t in TagsOf(r) {
      var i :| 0 <= i < |r| && TagsOf(r)[i] == t;
      assert r[i] in multiset(g);
      var k :| 0 <= k < |g| && g[k] == r[i];
      assert d[k] == t;
    }
  }

  // ---------------------------------------------------------------------------
  // renameTag
  // ---------------------------------------------------------------------------

  /** The filter `"tasks.tags": t`: some task of the log carries `t`. */
  predicate HasTag(l: WorkLog, t: string) {
    exists k :: 0 <= k < |l.tasks| && t in l.tasks[k].tags
  }

  lemma {:induction false} TaskTagsMembership(tasks: seq<Task>, t: string)
    ensures t in TaskTags(tasks) <==> exists k :: 0 <= k < |tasks| && t in tasks[k].tags
  {
    if tasks != [] {
      TaskTagsMembership(tasks[1..], t);
      if t in TaskTags(tasks[1..]) {
        var k :| 0 <= k < |tasks[1..]| && t in tasks[1..][k].tags;
        assert t in tasks[k + 1].tags;
      }
      if exists k :: 0 <= k < |tasks| && t in tasks[k].tags {
        var k :| 0 <= k < |tasks| && t in tasks[k].tags;
        if k > 0 {
          assert tasks[1..][k - 1] == tasks[k];
        }
      }
    }
  }

  /** `tags.$[tag]` with `arrayFilters: [{ tag: o }]`: every `o` becomes `n`. */
  function RenameIn(tags: seq<string>, o: string, n: string): seq<string>
  {
    seq(|tags|, i requires 0 <= i < |tags| => if tags[i] == o then n else tags[i])
  }

  /** `tasks.$[]`: the renaming applied to every task. */
  function RenameTasks(tasks: seq<Task>, o: string, n: string): seq<Task>
  {
    seq(|tasks|, k requires 0 <= k < |tasks| => tasks[k].(tags := RenameIn(tasks[k].tags, o, n)))
  }

  /** One document under `updateMany({ userId, "tasks.tags": o }, ...)`: only a
      matched document is rewritten, and the timestamps plugin stamps it. */
  function RenameInLog(l: WorkLog, user: UserId, o: string, n: string, now: Instant): WorkLog
  {
    if l.userId == user && HasTag(l, o) then l.(tasks := RenameTasks(l.tasks, o, n), updatedAt := now) else l
  }

  function RenamedLogs(logs: seq<WorkLog>, user: UserId, o: string, n: string, now: Instant): seq<WorkLog>
  {
    seq(|logs|, i requires 0 <= i < |logs| => RenameInLog(logs[i], user, o, n, now))
  }

  /** `matchedCount`: the user's logs the filter selects. */
  function MatchCount(logs: seq<WorkLog>, user: UserId, t: string): nat
  {
    if logs == [] then 0 else (if logs[0].userId == user && HasTag(logs[0], t) then 1 else 0) + MatchCount(logs[1..], user, t)
  }

  lemma RenameInConcat(a: seq<string>, b: seq<string>, o: string, n: string)
    ensures RenameIn(a + b, o, n) == RenameIn(a, o, n) + RenameIn(b, o, n)
  {
  }

  lemma RenameInAbsent(s: seq<string>, o: string, n: string)
    requires o !in s
    ensures RenameIn(s, o, n) == s
  {
  }

  lemma {:induction false} TaskTagsRenamed(tasks: seq<Task>, o: string, n: string)
    ensures TaskTags(RenameTasks(tasks, o, n)) == RenameIn(TaskTags(tasks), o, n)
  {
    if tasks != [] {
      assert RenameTasks(tasks, o, n)[1..] == RenameTasks(tasks[1..], o, n);
      TaskTagsRenamed(tasks[1..], o, n);
      RenameInConcat(tasks[0].tags, TaskTags(tasks[1..]), o, n);
    }
  }

  /** Renaming and unwinding commute: the tally after the update is the old
      unwound list with every `o` read as `n`. */
  lemma {:induction false} UnwindRenamed(logs: seq<WorkLog>, user: UserId, o: string, n: string, now: Instant)
    ensures Unwind(RenamedLogs(logs, user, o, n, now), user) == RenameIn(Unwind(logs, user), o, n)
  {
    if logs != [] {
      var l := logs[0];
      assert RenamedLogs(logs, user, o, n, now)[1..] == RenamedLogs(logs[1..], user, o, n, now);
      UnwindRenamed(logs[1..], user, o, n, now);
      var own := if l.userId == user then TaskTags(l.tasks) else [];
      RenameInConcat(own, Unwind(logs[1..], user), o, n);
      TaskTagsRenamed(l.tasks, o, n);
      TaskTagsMembership(l.tasks, o);
      if !HasTag(l, o) {
        RenameInAbsent(own, o, n);
      }
    }
  }

  /** How many times `t` occurs once `o` is renamed to `n`, given how many
      times `t` and `o` occurred before. */
  function RenamedCount(ct: nat, co: nat, t: string, o: string, n: string): nat
  {
    if o == n then ct else if t == o then 0 else if t == n then ct + co else ct
  }

  lemma {:induction false} CountRenameIn(s: seq<string>, t: string, o: string, n: string)
    ensures Count(RenameIn(s, o, n), t) == RenamedCount(Count(s, t), Count(s, o), t, o, n)
  {
    if s != [] {
      assert RenameIn(s, o, n)[1..] == RenameIn(s[1..], o, n);
      CountRenameIn(s[1..], t, o, n);
    }
  }

  /** After a rename every tag's tally follows `RenamedCount`: `o` is gone, `n`
      gains `o`'s uses, every other tag keeps its count. */
  lemma RenameCounts(logs: seq<WorkLog>, user: UserId, o: string, n: string, now: Instant, t: string)
    ensures Occurrences(RenamedLogs(logs, user, o, n, now), user, t) ==
            RenamedCount(Occurrences(logs, user, t), Occurrences(logs, user, o), t, o, n)
  {
    UnwindRenamed(logs, user, o, n, now);
    CountRenameIn(Unwind(logs, user), t, o, n);
  }

  /** A rename leaves documents, tasks, ids, contents and other users' logs in
      place, and keeps every tag list's length. */
  lemma RenameKeepsShape(logs: seq<WorkLog>, user: UserId, o: string, n: string, now: Instant)
    ensures var r := RenamedLogs(logs, user, o, n, now);
      SameKeys(logs, r) &&
      (forall i :: 0 <= i < |logs| && logs[i].userId != user ==> r[i] == logs[i]) &&
      (forall i, k :: 0 <= i < |logs| && 0 <= k < |logs[i].tasks| ==>
         r[i].tasks[k].content == logs[i].tasks[k].content &&
         |r[i].tasks[k].tags| == |logs[i].tasks[k].tags|)
  {
  }

  /** Once renamed to a different name, the old tag is gone from GET /tags. */
  lemma RenamedTagDisappears(logs: seq<WorkLog>, user: UserId, o: string, n: string, now: Instant)
    requires o != n
    ensures o !in TagsOf(GetAllTags(RenamedLogs(logs, user, o, n, now), user))
  {
    RenameCounts(logs, user, o, n, now, o);
    GetAllTagsSpec(RenamedLogs(logs, user, o, n, now), user);
  }

  /** What the handlers send on success: the message and the matched count. */
  datatype UpdateSummary = UpdateSummary(message: string, matchedCount: nat)

  /** PUT /tags/rename with body `{ oldTag, newTag }`. */
  method RenameTag(store: Collection, user: UserId, oldTag: Option<string>, newTag: Option<string>, now: Instant)
    returns (r: Reply<UpdateSummary>)
    requires store.Valid()
    modifies store`logs
    ensures store.Valid()
    ensures Falsy(oldTag) || Falsy(newTag) ==> r == BadRequest(TagsRequired) && store.logs == old(store.logs)
    ensures !Falsy(oldTag) && !Falsy(newTag) ==>
      store.logs == RenamedLogs(old(store.logs), user, oldTag.value, newTag.value, now) &&
      r == Ok(UpdateSummary(TagRenamed, MatchCount(old(store.logs), user, oldTag.value)))
  {
    if Falsy(oldTag) || Falsy(newTag) {
      return BadRequest(TagsRequired);
    }
    var matched := MatchCount(store.logs, user, oldTag.value);
    var renamed := RenamedLogs(store.logs, user, oldTag.value, newTag.value, now);
    RenameKeepsShape(store.logs, user, oldTag.value, newTag.value, now);
    SameKeysKeepInvariant(store.logs, renamed, store.nextId);
    store.logs := renamed;
    r := Ok(UpdateSummary(TagRenamed, matched));
  }

  // ---------------------------------------------------------------------------
  // deleteTag
  // ---------------------------------------------------------------------------

  /** `$pull`: every copy of `t` removed, the rest in order. */
  function RemoveAll(s: seq<string>, t: string): seq<string>
  {
    if s == [] then [] else (if s[0] == t then [] else [s[0]]) + RemoveAll(s[1..], t)
  }

  function PullTasks(tasks: seq<Task>, t: string): seq<Task>
  {
    seq(|tasks|, k requires 0 <= k < |tasks| => tasks[k].(tags := RemoveAll(tasks[k].tags, t)))
  }

  function PullInLog(l: WorkLog, user: UserId, t: string, now: Instant): WorkLog
  {
    if l.userId == user && HasTag(l, t) then l.(tasks := PullTasks(l.tasks, t), updatedAt := now) else l
  }

  function DeletedLogs(logs: seq<WorkLog>, user: UserId, t: string, now: Instant): seq<WorkLog>
  {
    seq(|logs|, i requires 0 <= i < |logs| => PullInLog(logs[i], user, t, now))
  }

  lemma {:induction false} RemoveAllConcat(a: seq<string>, b: seq<string>, t: string)
    ensures RemoveAll(a + b, t) == RemoveAll(a, t) + RemoveAll(b, t)
  {
    if a == [] {
      assert a + b == b;
    } else {
      assert (a + b)[1..] == a[1..] + b;
      RemoveAllConcat(a[1..], b, t);
    }
  }

  lemma {:induction false} RemoveAllAbsent(s: seq<string>, t: string)
    requires t !in s
    ensures RemoveAll(s, t) == s
  {
    if s != [] {
      RemoveAllAbsent(s[1..], t);
      assert s == [s[0]] + s[1..];
    }
  }

  /** No copy of `t` survives the pull; every other value keeps its count. */
  lemma {:induction false} CountRemoveAll(s: seq<string>, t: string, x: string)
    ensures Count(RemoveAll(s, t), x) == if x == t then 0 else Count(s, x)
  {
    if s != [] {
      CountRemoveAll(s[1..], t, x);
      CountConcat(if s[0] == t then [] else [s[0]], RemoveAll(s[1..], t), x);
      assert Count([s[0]], x) == (if s[0] == x then 1 else 0) by {
        assert [s[0]][1..] == [];
      }
    }
  }

  lemma {:induction false} TaskTagsPulled(tasks: seq<Task>, t: string)
    ensures TaskTags(PullTasks(tasks, t)) == RemoveAll(TaskTags(tasks), t)
  {
    if tasks != [] {
      assert PullTasks(tasks, t)[1..] == PullTasks(tasks[1..], t);
      TaskTagsPulled(tasks[1..], t);
      RemoveAllConcat(tasks[0].tags, TaskTags(tasks[1..]), t);
    }
  }

  lemma {:induction false} UnwindDeleted(logs: seq<WorkLog>, user: UserId, t: string, now: Instant)
    ensures Unwind(DeletedLogs(logs, user, t, now), user) == RemoveAll(Unwind(logs, user), t)
  {
    if logs != [] {
      var l := logs[0];
      assert DeletedLogs(logs, user, t, now)[1..] == DeletedLogs(logs[1..], user, t, now);
      UnwindDeleted(logs[1..], user, t, now);
      var own := if l.userId == user then TaskTags(l.tasks) else [];
      RemoveAllConcat(own, Unwind(logs[1..], user), t);
      TaskTagsPulled(l.tasks, t);
      TaskTagsMembership(l.tasks, t);
      if !HasTag(l, t) {
        RemoveAllAbsent(own, t);
      }
    }
  }

  /** After a delete the tag has no uses left and every other tag keeps its count. */
  lemma DeleteCounts(logs: seq<WorkLog>, user: UserId, t: string, now: Instant, x: string)
    ensures Occurrences(DeletedLogs(logs, user, t, now), user, x) ==
            if x == t then 0 else Occurrences(logs, user, x)
  {
    UnwindDeleted(logs, user, t, now);
    CountRemoveAll(Unwind(logs, user), t, x);
  }

  /** The deleted tag is gone from GET /tags. */
  lemma DeletedTagDisappears(logs: seq<WorkLog>, user: UserId, t: string, now: Instant)
    ensures t !in TagsOf(GetAllTags(DeletedLogs(logs, user, t, now), user))
  {
    DeleteCounts(logs, user, t, now, t);
    GetAllTagsSpec(DeletedLogs(logs, user, t, now), user);
  }

  lemma {:induction false} RemoveAllRemoves(s: seq<string>, t: string)
    ensures t !in RemoveAll(s, t)
  {
    if s != [] {
      RemoveAllRemoves(s[1..], t);
    }
  }

  /** A second delete of the same tag matches no document and changes nothing,
      not even a timestamp. */
  lemma DeleteIdempotent(logs: seq<WorkLog>, user: UserId, t: string, now: Instant, later: Instant)
    ensures var once := DeletedLogs(logs, user, t, now);
      DeletedLogs(once, user, t, later) == once && MatchCount(once, user, t) == 0
  {
    var once := DeletedLogs(logs, user, t, now);
    forall i | 0 <= i < |once| ensures !(once[i].userId == user && HasTag(once[i], t)) {
      if logs[i].userId == user && HasTag(logs[i], t) {
        forall k | 0 <= k < |once[i].tasks| ensures t !in once[i].tasks[k].tags {
          RemoveAllRemoves(logs[i].tasks[k].tags, t);
        }
      }
    }
    NoMatchCount(once, user, t);
  }

  lemma {:induction false} NoMatchCount(logs: seq<WorkLog>, user: UserId, t: string)
    requires forall i :: 0 <= i < |logs| ==> !(logs[i].userId == user && HasTag(logs[i], t))
    ensures MatchCount(logs, user, t) == 0
  {
    if logs != [] {
      NoMatchCount(logs[1..], user, t);
    }
  }

  /** A delete leaves documents, tasks, ids, contents and other users' logs in place. */
  lemma DeleteKeepsShape(logs: seq<WorkLog>, user: UserId, t: string, now: Instant)
    ensures var r := DeletedLogs(logs, user, t, now);
      SameKeys(logs, r) &&
      (forall i :: 0 <= i < |logs| && logs[i].userId != user ==> r[i] == logs[i]) &&
      (forall i, k :: 0 <= i < |logs| && 0 <= k < |logs[i].tasks| ==>
         r[i].tasks[k].content == logs[i].tasks[k].content)
  {
  }

  /** DELETE /tags/:tag. */
  method DeleteTag(store: Collection, user: UserId, tag: string, now: Instant) returns (r: Reply<UpdateSummary>)
    requires store.Valid()
    modifies store`logs
    ensures store.Valid()
    ensures tag == "" ==> r == BadRequest(TagRequired) && store.logs == old(store.logs)
    ensures tag != "" ==>
      store.logs == DeletedLogs(old(store.logs), user, tag, now) &&
      r == Ok(UpdateSummary(TagDeleted, MatchCount(old(store.logs), user, tag)))
  {
    if tag == "" {
      return BadRequest(TagRequired);
    }
    var matched := MatchCount(store.logs, user, tag);
    var pulled := DeletedLogs(store.logs, user, tag, now);
    DeleteKeepsShape(store.logs, user, tag, now);
    SameKeysKeepInvariant(store.logs, pulled, store.nextId);
    store.logs := pulled;
    r := Ok(UpdateSummary(TagDeleted, matched));
  }
}
