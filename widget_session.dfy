/** Sequences of host calls on the widget's one cache slot.

    A session is the list of calls the host makes, one after another: manual
    refreshes, placeholder and snapshot requests and timeline requests (each
    carrying the outcome its network call would have and its two clock reads).
    The lemmas here are about whole sessions: what the cache holds after any
    session, where displayed advice comes from, and how a populated cache
    behaves under repeated requests.
 */
module WidgetSession {
  import opened AdviceSlipWidget

  datatype Event =
    | Refresh
    | PlaceholderRequest(now: int)
    | SnapshotRequest(now: int)
    | TimelineRequest(fetch: Option<AdviceSlip>, entryClock: int, policyClock: int)

  datatype Response =
    | Acknowledged
    | EntryShown(entry: SimpleEntry)
    | TimelineResult(delivered: Option<Timeline>, fetched: bool)

  /** One host call on the cache value `cache`: the new cache and the reply. */
  function Apply(cache: Option<string>, e: Event): (Option<string>, Response) {
    match e
    case Refresh => (None, Acknowledged)
    case PlaceholderRequest(now) => (cache, EntryShown(Placeholder(now)))
    case SnapshotRequest(now) => (cache, EntryShown(Snapshot(now)))
    case TimelineRequest(fetch, entryClock, policyClock) =>
      var s := GetTimelineStep(cache, fetch, entryClock, policyClock);
      (s.cache, TimelineResult(s.delivered, s.fetched))
  }

  /** The cache after running `events` from the cache value `start`. */
  function CacheAfter(start: Option<string>, events: seq<Event>): Option<string>
    decreases |events|
  {
    if events == [] then start
    else Apply(CacheAfter(start, events[..|events| - 1]), events[|events| - 1]).0
  }

  /** The replies to `events`, one per call, in order. */
  function Responses(start: Option<string>, events: seq<Event>): (rs: seq<Response>)
    ensures |rs| == |events|
    decreases |events|
  {
    if events == [] then []
    else
      var init := events[..|events| - 1];
      Responses(start, init) + [Apply(CacheAfter(start, init), events[|events| - 1]).1]
  }

  /** The reply to call `k` is what that call gives on the cache left by the calls
      before it. */
  lemma {:induction false} ResponseAt(start: Option<string>, events: seq<Event>, k: nat)
    requires k < |events|
    ensures Responses(start, events)[k] == Apply(CacheAfter(start, events[..k]), events[k]).1
    decreases |events|
  {
    var init := events[..|events| - 1];
    if k < |init| {
      ResponseAt(start, init, k);
      assert init[..k] == events[..k];
    }
  }

  /** The calls made since the last manual refresh (all of them if there was none). */
  function SinceLastRefresh(events: seq<Event>): seq<Event>
    decreases |events|
  {
    if events == [] then []
    else if events[|events| - 1].Refresh? then []
    else SinceLastRefresh(events[..|events| - 1]) + [events[|events| - 1]]
  }

  /** The advice a call would fetch successfully, if it is a timeline request. */
  function FetchedBy(e: Event): Option<string> {
    if e.TimelineRequest? && e.fetch.Some? then Some(e.fetch.value.advice) else None
  }

  /** The advice of the first timeline request in `events` whose fetch succeeds. */
  function FirstSuccess(events: seq<Event>): Option<string> {
    if events == [] then None
    else if FetchedBy(events[0]).Some? then FetchedBy(events[0])
    else FirstSuccess(events[1..])
  }

  /** Every advice text some timeline request of `events` could fetch. */
  function FetchableAdvice(events: seq<Event>): set<string> {
    set i | 0 <= i < |events| && FetchedBy(events[i]).Some? :: FetchedBy(events[i]).value
  }

  lemma {:induction false} FirstSuccessAppend(events: seq<Event>, e: Event)
    ensures FirstSuccess(events + [e])
         == if FirstSuccess(events).Some? then FirstSuccess(events) else FetchedBy(e)
  {
    if events == [] {
      assert [e][1..] == [];
    } else {
      assert (events + [e])[1..] == events[1..] + [e];
      FirstSuccessAppend(events[1..], e);
    }
  }

  /** The cache invariant: starting empty, the cache holds exactly the advice of
      the first successful fetch since the last refresh, and is empty if there
      was none. Later successful fetches are never consumed, because the cache
      is already populated when they come. */
  lemma {:induction false} CacheIsFirstFetchSinceRefresh(events: seq<Event>)
    ensures CacheAfter(None, events) == FirstSuccess(SinceLastRefresh(events))
  {
    if events != [] {
      var init, e := events[..|events| - 1], events[|events| - 1];
      CacheIsFirstFetchSinceRefresh(init);
      if !e.Refresh? {
        FirstSuccessAppend(SinceLastRefresh(init), e);
      }
    }
  }

  /** Whatever the cache holds after a session that started empty was fetched by
      one of its timeline requests. */
  lemma {:induction false} CachedAdviceWasFetched(events: seq<Event>)
    ensures CacheAfter(None, events).Some? ==> CacheAfter(None, events).value in FetchableAdvice(events)
  {
    if events != [] {
      var init, e := events[..|events| - 1], events[|events| - 1];
      CachedAdviceWasFetched(init);
      var c := CacheAfter(None, init);
      if c.Some? && c.value in FetchableAdvice(init) {
        var i :| 0 <= i < |init| && FetchedBy(init[i]).Some? && FetchedBy(init[i]).value == c.value;
        assert events[i] == init[i];
      }
      if e.TimelineRequest? && e.fetch.Some? {
        assert FetchedBy(events[|events| - 1]).value == e.fetch.value.advice;
      }
    }
  }

  /** Every timeline delivered in a session that started empty has one entry,
      and that entry shows the first successful fetch since the last refresh
      before it: the cached advice, never the "..." fallback branch. */
  lemma {:induction false} DeliveredAdviceIsFirstFetchSinceRefresh(events: seq<Event>, k: nat)
    requires k < |events|
    ensures var r := Responses(None, events)[k];
            r.TimelineResult? && r.delivered.Some? ==>
              |r.delivered.value.entries| == 1 &&
              FirstSuccess(SinceLastRefresh(events[..k + 1])) == Some(r.delivered.value.entries[0].advice)
  {
    var before := events[..k];
    assert events[..k + 1] == before + [events[k]];
    assert (before + [events[k]])[..k] == before;
    ResponseAt(None, events, k);
    CacheIsFirstFetchSinceRefresh(events[..k + 1]);
  }

  /** A session with no refresh in it never changes a populated cache, never
      fetches, and delivers every timeline request with that same advice. */
  lemma {:induction false} PopulatedCacheIsStable(advice: string, events: seq<Event>, k: nat)
    requires forall i :: 0 <= i < |events| ==> !events[i].Refresh?
    requires k < |events|
    ensures CacheAfter(Some(advice), events) == Some(advice)
    ensures var r := Responses(Some(advice), events)[k];
            events[k].TimelineRequest? ==>
              r == TimelineResult(Some(Timeline([SimpleEntry(events[k].entryClock, advice)],
                                                After(events[k].policyClock + 15 * 60))), false)
  {
    var init := events[..|events| - 1];
    if init != [] {
      PopulatedCacheIsStable(advice, init, if k < |init| then k else 0);
    } else {
      assert CacheAfter(Some(advice), init) == Some(advice);
    }
    if k < |init| {
      assert Responses(Some(advice), events)[k] == Responses(Some(advice), init)[k];
    }
  }

  /** Placeholder and snapshot requests neither read nor change the cache: their
      reply is the same for every cache value. */
  lemma SnapshotsIgnoreCache(c: Option<string>, c': Option<string>, now: int)
    ensures Apply(c, SnapshotRequest(now)) == (c, EntryShown(Placeholder(now)))
    ensures Apply(c, PlaceholderRequest(now)).0 == c
    ensures Apply(c, SnapshotRequest(now)).1 == Apply(c', SnapshotRequest(now)).1
    ensures Apply(c, PlaceholderRequest(now)).1 == Apply(c', PlaceholderRequest(now)).1
  {
  }

  /** After a manual refresh, whatever the cache held, the next timeline request
      fetches and shows the new advice, not the old one. */
  lemma {:induction false} RefreshForcesRefetch(c: Option<string>, slip: AdviceSlip, entryClock: int, policyClock: int)
    ensures var events := [Refresh, TimelineRequest(Some(slip), entryClock, policyClock)];
            CacheAfter(c, events) == Some(slip.advice) &&
            Responses(c, events)[1] == TimelineResult(Some(Timeline([SimpleEntry(entryClock, slip.advice)],
                                                                     After(policyClock + 15 * 60))), true)
  {
  }
}
