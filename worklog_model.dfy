/** The stored document: one WorkLog per (user, calendar day) holding the day's
    ordered tasks (backend/models/Worklog.js), and the in-memory collection
    that stands for the MongoDB `worklogs` collection. */
module WorkLogModel {
  import opened Common

  type UserId = nat
  /** MongoDB ObjectIds; the collection hands them out from a counter. */
  type ObjectId = nat
  /** Milliseconds since the epoch, as `Date.now()` gives them. */
  type Instant = int

  /** A calendar day, kept as the number yyyymmdd read off its "YYYY-MM-DD" text.
      On real calendar dates this order is the chronological order of the
      midnight instants MongoDB stores. */
  type Day = d: nat | d < 100000000

  /** `new Date(s)` for the day texts the routes accept; anything else is an
      invalid date, which Mongoose refuses to cast. */
  function ParseDay(s: string): (r: Option<Day>)
    ensures r.Some? <==> IsDateText(s)
  {
    if IsDateText(s) then
      DigitsValueBound(s[..4]);
      DigitsValueBound(s[5..7]);
      DigitsValueBound(s[8..]);
      Some(DigitsValue(s[..4]) * 10000 + DigitsValue(s[5..7]) * 100 + DigitsValue(s[8..]))
    else None
  }

  /** `date.toISOString().split("T")[0]` of a stored day. */
  function FormatDay(d: Day): (s: string)
    ensures IsDateText(s)
  {
    var s := Pad(d / 10000, 4) + "-" + Pad(d / 100 % 100, 2) + "-" + Pad(d % 100, 2);
    assert s[..4] == Pad(d / 10000, 4);
    assert s[5..7] == Pad(d / 100 % 100, 2);
    assert s[8..] == Pad(d % 100, 2);
    s
  }

  lemma DayTextRoundTrip(s: string)
    requires IsDateText(s)
    ensures ParseDay(s).Some? && FormatDay(ParseDay(s).value) == s
  {
    var y, m, dd := DigitsValue(s[..4]), DigitsValue(s[5..7]), DigitsValue(s[8..]);
    DigitsValueBound(s[..4]);
    DigitsValueBound(s[5..7]);
    DigitsValueBound(s[8..]);
    var d: Day := y * 10000 + m * 100 + dd;
    assert ParseDay(s) == Some(d);
    DayFields(y, m, dd);
    PadOfValue(s[..4]);
    PadOfValue(s[5..7]);
    PadOfValue(s[8..]);
    DateTextPieces(s);
  }

  /** A date text is its three digit fields joined by "-". */
  lemma DateTextPieces(s: string)
    requires IsDateText(s)
    ensures s == s[..4] + "-" + s[5..7] + "-" + s[8..]
  {
    assert s[..4] + [s[4]] + s[5..7] + [s[7]] + s[8..] == s;
  }

  lemma DayRoundTrip(d: Day)
    ensures ParseDay(FormatDay(d)) == Some(d)
  {
    var s := FormatDay(d);
    assert s[..4] == Pad(d / 10000, 4);
    assert s[5..7] == Pad(d / 100 % 100, 2);
    assert s[8..] == Pad(d % 100, 2);
    PadValue(d / 10000, 4);
    PadValue(d / 100 % 100, 2);
    PadValue(d % 100, 2);
    DayFromFields(d);
  }

  lemma DayFields(y: nat, m: nat, dd: nat)
    requires m < 100 && dd < 100
    ensures (y * 10000 + m * 100 + dd) / 10000 == y
    ensures (y * 10000 + m * 100 + dd) / 100 % 100 == m
    ensures (y * 10000 + m * 100 + dd) % 100 == dd
  {
    var d := y * 10000 + m * 100 + dd;
    assert d == (y * 100 + m) * 100 + dd;
    assert d / 100 == y * 100 + m;
  }

  lemma DayFromFields(d: nat)
    ensures d == (d / 10000) * 10000 + (d / 100 % 100) * 100 + d % 100
  {
    assert d == (d / 100) * 100 + d % 100;
    assert d / 100 == (d / 100 / 100) * 100 + d / 100 % 100;
    assert d / 100 / 100 == d / 10000;
  }

  /** A task sub-document. `tags` is not declared by the schema but every
      controller reads and writes it, so it is a field here. */
  datatype Task = Task(id: ObjectId, content: string, tags: seq<string>, createdAt: Instant)

  /** A work-log document; `createdAt`/`updatedAt` come from `timestamps: true`. */
  datatype WorkLog = WorkLog(id: ObjectId, userId: UserId, date: Day, tasks: seq<Task>,
                             createdAt: Instant, updatedAt: Instant)

  /** The unique index on { userId: 1, date: 1 }. */
  ghost predicate UniqueUserDay(logs: seq<WorkLog>) {
    forall i, j :: 0 <= i < j < |logs| ==>
      logs[i].userId != logs[j].userId || logs[i].date != logs[j].date
  }

  ghost predicate DistinctLogIds(logs: seq<WorkLog>) {
    forall i, j :: 0 <= i < j < |logs| ==> logs[i].id != logs[j].id
  }

  /** Task ids are ObjectIds too, so no two tasks anywhere share one. */
  ghost predicate DistinctTaskIds(logs: seq<WorkLog>) {
    forall i, j, a, b ::
      0 <= i < |logs| && 0 <= j < |logs| && 0 <= a < |logs[i].tasks| && 0 <= b < |logs[j].tasks| &&
      (i != j || a != b) ==>
        logs[i].tasks[a].id != logs[j].tasks[b].id
  }

  ghost predicate IdsBelow(logs: seq<WorkLog>, n: ObjectId) {
    forall i :: 0 <= i < |logs| ==>
      logs[i].id < n && forall a :: 0 <= a < |logs[i].tasks| ==> logs[i].tasks[a].id < n
  }

  ghost predicate StoreInvariant(logs: seq<WorkLog>, nextId: ObjectId) {
    UniqueUserDay(logs) && DistinctLogIds(logs) && DistinctTaskIds(logs) && IdsBelow(logs, nextId)
  }

  /** Same documents and tasks, in the same places, under the same ids: what an
      update that only rewrites contents, tags or timestamps leaves in place. */
  ghost predicate SameKeys(a: seq<WorkLog>, b: seq<WorkLog>) {
    |a| == |b| &&
    forall i :: 0 <= i < |a| ==>
      a[i].id == b[i].id && a[i].userId == b[i].userId && a[i].date == b[i].date &&
      |a[i].tasks| == |b[i].tasks| &&
      forall k :: 0 <= k < |a[i].tasks| ==> a[i].tasks[k].id == b[i].tasks[k].id
  }

  lemma SameKeysKeepInvariant(a: seq<WorkLog>, b: seq<WorkLog>, n: ObjectId)
    requires StoreInvariant(a, n) && SameKeys(a, b)
    ensures StoreInvariant(b, n)
  {
  }

  /** A log whose (user, day) pair is taken may only be its own entry. */
  lemma UserDayDetermines(logs: seq<WorkLog>, i: nat, j: nat)
    requires UniqueUserDay(logs) && i < |logs| && j < |logs|
    requires logs[i].userId == logs[j].userId && logs[i].date == logs[j].date
    ensures i == j
  {
  }

  /** The `worklogs` collection: its documents in natural (insertion) order and
      the source of fresh ObjectIds. */
  class Collection {
    var logs: seq<WorkLog>
    var nextId: ObjectId

    ghost predicate Valid()
      reads this
    {
      StoreInvariant(logs, nextId)
    }

    constructor ()
      ensures Valid() && logs == [] && nextId == 0
    {
      logs := [];
      nextId := 0;
    }

    method NewObjectId() returns (id: ObjectId)
      requires Valid()
      modifies this`nextId
      ensures Valid()
      ensures id == old(nextId) && nextId == id + 1
    {
      id := nextId;
      nextId := nextId + 1;
    }
  }
}
