/** frontend/src/pages/Feed.tsx: the infinite-scroll feed. Its state cells
    (logs, page, hasMore, loading, the date filter) and the observer watching
    the last entry, updated by the reset effect, the fetch effect and the
    observer callback. */
module FeedPage {
  import opened Common
  import opened UseWorkLogs

  /** A log as the feed shows it. */
  datatype FeedLog = FeedLog(id: string, date: string, tasks: seq<ClientTask>, userId: string)

  /** `data.logs || data`: the paginated shape `{ logs, ... }`, or a bare array. */
  datatype FeedReply = WithLogs(logs: seq<FeedLog>) | BareArray(items: seq<FeedLog>)

  function NewLogs(r: FeedReply): seq<FeedLog> {
    match r
    case WithLogs(logs) => logs
    case BareArray(items) => items
  }

  const PagePrefix := "/worklogs?page="
  const LimitPart := "&limit=10"

  /** `/worklogs?page=${page}&limit=10`, plus `&date=yyyy-MM-dd` under a filter. */
  function RequestUrl(page: nat, date: Option<string>): string
  {
    PagePrefix + NatToString(page) + LimitPart + (if date.Some? then "&date=" + date.value else "")
  }

  /** The URL reads back as its page number, the fixed limit, and the filter
      exactly when one is set. */
  lemma RequestUrlSpec(page: nat, date: Option<string>)
    ensures var u := RequestUrl(page, date); var n := |NatToString(page)|;
      |u| >= 15 + n + 9 &&
      u[..15] == PagePrefix && DigitsValue(u[15..15 + n]) == page && u[15 + n..15 + n + 9] == LimitPart &&
      (date.None? ==> |u| == 15 + n + 9) &&
      (date.Some? ==> u[15 + n + 9..] == "&date=" + date.value)
  {
    NatToStringValue(page);
    var tail := if date.Some? then "&date=" + date.value else "";
    Pieces(PagePrefix, NatToString(page), LimitPart, tail);
  }

  /** The four pieces of a concatenation read back by position. */
  lemma Pieces(a: string, b: string, c: string, d: string)
    ensures var u := a + b + c + d;
      u[..|a|] == a && u[|a|..|a| + |b|] == b && u[|a| + |b|..|a| + |b| + |c|] == c &&
      u[|a| + |b| + |c|..] == d
  {
  }

  /** `setLogs(prev => page === 1 ? newLogs : [...prev, ...newLogs])`. */
  function Merge(prev: seq<FeedLog>, page: nat, batch: seq<FeedLog>): seq<FeedLog>
  {
    if page == 1 then batch else prev + batch
  }

  function Flatten(batches: seq<seq<FeedLog>>): seq<FeedLog>
  {
    if batches == [] then [] else Flatten(batches[..|batches| - 1]) + batches[|batches| - 1]
  }

  /** The logs after pages 1..|batches| have come back in order, from any starting list. */
  function AfterPages(prev: seq<FeedLog>, batches: seq<seq<FeedLog>>): seq<FeedLog>
  {
    if batches == [] then prev
    else Merge(AfterPages(prev, batches[..|batches| - 1]), |batches|, batches[|batches| - 1])
  }

  /** Pages fetched one after another leave the feed holding their batches in
      page order, whatever it held before page 1. */
  lemma {:induction false} PagesConcatenate(prev: seq<FeedLog>, batches: seq<seq<FeedLog>>)
    requires |batches| >= 1
    ensures AfterPages(prev, batches) == Flatten(batches)
  {
    if |batches| == 1 {
      assert batches[..0] == [];
    } else {
      PagesConcatenate(prev, batches[..|batches| - 1]);
    }
  }

  /** Which reply lands last decides the feed after a stale request: a later
      page's batch arriving after page 1's is appended to it; arriving first,
      it is replaced by it. */
  lemma StaleReplyOrder(prev: seq<FeedLog>, b1: seq<FeedLog>, stale: nat, bs: seq<FeedLog>)
    requires stale != 1
    ensures Merge(Merge(prev, 1, b1), stale, bs) == b1 + bs
    ensures Merge(Merge(prev, stale, bs), 1, b1) == b1
  {
  }

  class FeedState {
    var logs: seq<FeedLog>
    var page: nat
    var hasMore: bool
    var loading: bool
    var date: Option<string>
    /** The observer on the last entry, by the `hasMore` its callback captured. */
    var observer: Option<bool>

    /** No observer is live while a fetch is in flight. */
    ghost predicate Quiet()
      reads this
    {
      loading ==> observer.None?
    }

    constructor ()
      ensures logs == [] && page == 1 && hasMore && !loading && date.None? && observer.None?
      ensures Quiet()
    {
      logs := [];
      page := 1;
      hasMore := true;
      loading := false;
      date := None;
      observer := None;
    }

    /** `setDate(d)`: only the filter cell changes. `changed` says whether React
        sees a new value, so that the effects on `date` run. */
    method SetDate(d: Option<string>) returns (changed: bool)
      modifies this`date
      ensures date == d
      ensures changed <==> !(d == old(date) && d.None?)
    {
      changed := !(d == date && d.None?);
      date := d;
    }

    /** The reset effect: `setLogs([])`, `setPage(1)`, `setHasMore(true)`. */
    method ResetEffect()
      modifies this`logs, this`page, this`hasMore
      ensures logs == [] && page == 1 && hasMore
    {
      logs := [];
      page := 1;
      hasMore := true;
    }

    /** A filter change as React runs it. The commit runs the reset effect and
        then the fetch effect, whose closure still holds the page of that
        render; the reset's updates show only in the next render, where a page
        that became 1 runs the fetch effect again. `urls` are the requests in
        the order they go out. */
    method ChangeDate(d: Option<string>) returns (urls: seq<string>)
      modifies this`date, this`logs, this`page, this`hasMore, this`loading, this`observer
      ensures date == d
      ensures d == old(date) && d.None? ==>
        urls == [] && logs == old(logs) && page == old(page) && hasMore == old(hasMore) &&
        loading == old(loading) && observer == old(observer)
      ensures !(d == old(date) && d.None?) ==> logs == [] && page == 1 && hasMore && loading
      ensures !(d == old(date) && d.None?) && old(page) == 1 ==> urls == [RequestUrl(1, d)]
      ensures !(d == old(date) && d.None?) && old(page) != 1 ==> urls == [RequestUrl(old(page), d), RequestUrl(1, d)]
      ensures !(d == old(date) && d.None?) ==> (if old(loading) then observer == old(observer) else observer.None?)
      ensures old(Quiet()) ==> Quiet()
    {
      var changed := SetDate(d);
      if !changed {
        return [];
      }
      var stalePage := page;
      var first := BeginFetch();
      ResetEffect();
      if stalePage == 1 {
        urls := [first];
      } else {
        var second := BeginFetch();
        urls := [first, second];
      }
    }

    /** The ref callback of an earlier render called with null, as React does
        when `lastLogElementRef` changes identity or the last entry unmounts. Its
        closure saw the current `loading`: unless loading, it disconnects the
        observer and leaves a new one that observes nothing. */
    method RefCleared()
      modifies this`observer
      ensures loading ==> observer == old(observer)
      ensures !loading ==> observer.None?
    {
      if !loading {
        observer := None;
      }
    }

    /** The fetch effect up to the request: `setLoading(true)`, and the URL from
        the page and filter of the render. A rise of `loading` gives the ref a
        new identity, so the old ref is called with null first. */
    method BeginFetch() returns (url: string)
      modifies this`loading, this`observer
      ensures loading && url == RequestUrl(page, date)
      ensures !old(loading) ==> observer.None?
      ensures old(loading) ==> observer == old(observer)
      ensures old(Quiet()) ==> Quiet()
    {
      RefCleared();
      loading := true;
      url := RequestUrl(page, date);
    }

    /** The fetch effect after the request for `requested`: a batch replaces or
        extends the logs and sets `hasMore`; an error leaves both alone;
        `loading` is lowered either way. */
    method CompleteFetch(requested: nat, reply: Option<FeedReply>)
      modifies this`logs, this`hasMore, this`loading
      ensures !loading && Quiet()
      ensures reply.None? ==> logs == old(logs) && hasMore == old(hasMore)
      ensures reply.Some? ==>
        logs == Merge(old(logs), requested, NewLogs(reply.value)) && (hasMore <==> |NewLogs(reply.value)| > 0)
    {
      if reply.Some? {
        var batch := NewLogs(reply.value);
        logs := Merge(logs, requested, batch);
        hasMore := |batch| > 0;
      }
      loading := false;
    }

    /** `lastLogElementRef`: while loading nothing is (re)attached; otherwise a
        new observer captures the current `hasMore`. */
    method AttachObserver()
      modifies this`observer
      ensures loading ==> observer == old(observer)
      ensures !loading ==> observer == Some(hasMore)
      ensures old(Quiet()) ==> Quiet()
    {
      if !loading {
        observer := Some(hasMore);
      }
    }

    /** The last entry comes into view: the page advances only if the observer's
        captured `hasMore` is true. */
    method Intersect()
      modifies this`page
      ensures observer == Some(true) ==> page == old(page) + 1
      ensures observer != Some(true) ==> page == old(page)
      ensures Quiet() && loading ==> page == old(page)
    {
      if observer == Some(true) {
        page := page + 1;
      }
    }
  }
}
