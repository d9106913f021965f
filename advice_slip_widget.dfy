/** The one-slot advice cache behind the advice slip home-screen widget.

    The widget shows one piece of advice fetched from a remote endpoint. The
    fetched text is kept in a single process-wide slot; a timeline request
    fetches only when that slot is empty, and the manual refresh action empties
    it. Time is integer seconds handed in by the caller, and the network call is
    an input: `Some(slip)` for a successful fetch and decode, `None` for any
    failure.
 */
module AdviceSlipWidget {

  datatype Option<T> = None | Some(value: T)

  /** The `slip` object of the endpoint's JSON reply. */
  datatype AdviceSlip = AdviceSlip(id: int, advice: string)

  /** One rendered snapshot: the instant it was produced and the advice it shows. */
  datatype SimpleEntry = SimpleEntry(date: int, advice: string)

  /** When the host should ask for the next timeline. */
  datatype RefreshPolicy = After(instant: int)

  /** What a timeline request hands to the host. */
  datatype Timeline = Timeline(entries: seq<SimpleEntry>, policy: RefreshPolicy)

  /** Minutes between two timeline requests. */
  const RefreshTime: int := 15
  const SecondsPerMinute: int := 60
  /** The fixed advice of the placeholder and snapshot entries. */
  const PlaceholderAdvice: string := "If you don't want something to be public, don't post it on the Internet."
  /** The right-hand side of `cachedAdvice ?? "..."`. */
  const FallbackAdvice: string := "..."

  /** The instant `minutes` minutes after `t`. */
  function AddMinutes(t: int, minutes: int): int {
    t + minutes * SecondsPerMinute
  }

  /** The nil-coalescing read of the cache that labels a timeline entry. */
  function CachedOrFallback(cache: Option<string>): string {
    match cache
    case Some(advice) => advice
    case None => FallbackAdvice
  }

  /** The entry shown while the widget has no data yet; it depends on the clock only. */
  function Placeholder(now: int): (e: SimpleEntry)
    ensures e.date == now && e.advice == PlaceholderAdvice
  {
    SimpleEntry(now, PlaceholderAdvice)
  }

  /** The entry handed to the completion of a snapshot request. */
  function Snapshot(now: int): (e: SimpleEntry)
    ensures e == Placeholder(now)
  {
    SimpleEntry(now, PlaceholderAdvice)
  }

  /** The one-entry timeline built after the cache check, from the two clock reads. */
  function MakeTimeline(cache: Option<string>, entryClock: int, policyClock: int): (tl: Timeline)
    ensures |tl.entries| == 1 && tl.entries[0].date == entryClock
    ensures cache.Some? ==> tl.entries[0].advice == cache.value
    ensures tl.policy == After(policyClock + RefreshTime * SecondsPerMinute)
  {
    Timeline([SimpleEntry(entryClock, CachedOrFallback(cache))], After(AddMinutes(policyClock, RefreshTime)))
  }

  /** The outcome of one timeline request: the new cache, the timeline given to the
      completion (`None` when the completion is never called), and whether the
      fetch outcome was consumed. */
  datatype Step = Step(cache: Option<string>, delivered: Option<Timeline>, fetched: bool)

  /** A timeline request on the cache value `cache`, with `fetch` the outcome the
      network call would give and the two clock reads of the entry and the policy. */
  function GetTimelineStep(cache: Option<string>, fetch: Option<AdviceSlip>, entryClock: int, policyClock: int): (s: Step)
    // the network is asked exactly when the cache is empty
    ensures s.fetched <==> cache.None?
    // the completion is skipped exactly when the cache was empty and the fetch failed
    ensures s.delivered.None? <==> cache.None? && fetch.None?
    // a populated cache is left alone; an empty one takes the fetched advice, if any
    ensures cache.Some? ==> s.cache == cache
    ensures cache.None? && fetch.Some? ==> s.cache == Some(fetch.value.advice)
    ensures cache.None? && fetch.None? ==> s.cache == None
    // a delivered timeline has one entry showing the cached advice, never the fallback
    ensures s.delivered.Some? ==>
      s.cache.Some? &&
      s.delivered.value.entries == [SimpleEntry(entryClock, s.cache.value)] &&
      s.delivered.value.policy == After(policyClock + RefreshTime * SecondsPerMinute)
  {
    if cache.None? && fetch.None? then
      Step(None, None, true)
    else
      var stored := if cache.None? then Some(fetch.value.advice) else cache;
      Step(stored, Some(MakeTimeline(stored, entryClock, policyClock)), cache.None?)
  }

  /** A populated cache answers every request with the same timeline shape, without
      a fetch. */
  lemma CacheHit(advice: string, fetch: Option<AdviceSlip>, entryClock: int, policyClock: int)
    ensures GetTimelineStep(Some(advice), fetch, entryClock, policyClock)
         == Step(Some(advice), Some(Timeline([SimpleEntry(entryClock, advice)], After(policyClock + 15 * 60))), false)
  {
  }

  /** An empty cache and a successful fetch: the fetched advice is stored and shown. */
  lemma MissThenSuccess(slip: AdviceSlip, entryClock: int, policyClock: int)
    ensures GetTimelineStep(None, Some(slip), entryClock, policyClock)
         == Step(Some(slip.advice), Some(Timeline([SimpleEntry(entryClock, slip.advice)], After(policyClock + 15 * 60))), true)
  {
  }

  /** An empty cache and a failed fetch: nothing is delivered and the cache stays
      empty, so the following request fetches again. */
  lemma MissThenFailure(entryClock: int, policyClock: int, next: Option<AdviceSlip>, entryClock': int, policyClock': int)
    ensures GetTimelineStep(None, None, entryClock, policyClock) == Step(None, None, true)
    ensures GetTimelineStep(GetTimelineStep(None, None, entryClock, policyClock).cache, next, entryClock', policyClock').fetched
  {
  }

  /** With a clock that does not run backwards between its two reads, the next
      update is at least fifteen minutes after the entry's date. */
  lemma PolicyNotBeforeRefreshInterval(cache: Option<string>, fetch: Option<AdviceSlip>, entryClock: int, policyClock: int)
    requires entryClock <= policyClock
    ensures var s := GetTimelineStep(cache, fetch, entryClock, policyClock);
            s.delivered.Some? ==>
              s.delivered.value.policy.instant >= s.delivered.value.entries[0].date + RefreshTime * SecondsPerMinute
  {
  }

  /** The process-wide cache slot and the two operations that write it. */
  class AdviceCache {
    var cachedAdvice: Option<string>

    /** The cache starts empty when the process starts. */
    constructor ()
      ensures cachedAdvice == None
    {
      cachedAdvice := None;
    }

    /** The manual refresh action: empties the cache, whatever it held, without fetching. */
    method Invalidate()
      modifies this
      ensures cachedAdvice == None
    {
      cachedAdvice := None;
    }

    /** A timeline request. `fetch` is what the network call would return; it is
        consumed (`fetched`) only on a cache miss. `delivered == None` is a request
        whose completion is never called. */
    method GetTimeline(fetch: Option<AdviceSlip>, entryClock: int, policyClock: int)
      returns (delivered: Option<Timeline>, fetched: bool)
      modifies this
      ensures var s := GetTimelineStep(old(cachedAdvice), fetch, entryClock, policyClock);
              cachedAdvice == s.cache && delivered == s.delivered && fetched == s.fetched
    {
      fetched := false;
      if cachedAdvice.None? {
        fetched := true;
        if fetch.None? {
          delivered := None;
          return;
        }
        cachedAdvice := Some(fetch.value.advice);
      }
      var entry := SimpleEntry(entryClock, CachedOrFallback(cachedAdvice));
      var nextUpdate := AddMinutes(policyClock, RefreshTime);
      delivered := Some(Timeline([entry], After(nextUpdate)));
    }
  }

  /** Two refresh cycles on one cache, as a host would drive them: what the
      contracts above let a caller conclude. */
  method RefreshCycleScenario(t: int, t2: int)
  {
    var cache := new AdviceCache();
    var delivered, fetched := cache.GetTimeline(Some(AdviceSlip(7, "Eat well.")), t, t);
    assert fetched && delivered == Some(Timeline([SimpleEntry(t, "Eat well.")], After(t + 15 * 60)));
    delivered, fetched := cache.GetTimeline(Some(AdviceSlip(9, "Ignored.")), t2, t2);
    assert !fetched && delivered.value.entries[0].advice == "Eat well.";
    cache.Invalidate();
    delivered, fetched := cache.GetTimeline(Some(AdviceSlip(8, "Sleep more.")), t2, t2);
    assert fetched && delivered == Some(Timeline([SimpleEntry(t2, "Sleep more.")], After(t2 + 15 * 60)));
    cache.Invalidate();
    delivered, fetched := cache.GetTimeline(None, t2, t2);
    assert fetched && delivered == None && cache.cachedAdvice == None;
  }
}
