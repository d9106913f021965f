# Advice slip widget: the cache and timeline model

The advice slip widget is a home-screen widget that shows one short piece of
advice from a remote endpoint. Its only decision logic is a one-slot cache
(`cachedAdvice`, a process-wide optional string) and three host-facing
operations:

- **refresh** (the `RefreshAdviceSlip` intent) empties the cache and fetches nothing;
- **placeholder** and **snapshot** return a fixed entry with the current time and
  never touch the cache;
- **timeline** fetches only when the cache is empty. A failed fetch ends the
  request without calling its completion. On a miss with a successful fetch the
  request stores the fetched advice; on a hit the cache is left as it is. In both
  delivering cases it delivers a timeline of one entry showing the cached advice,
  which asks to be refreshed 15 minutes after the second clock read.

`advice_slip_widget.dfy` (module `AdviceSlipWidget`) holds the data model:
`AdviceSlip`, `SimpleEntry`, `Timeline`, `RefreshPolicy` and the constants. It has
`Placeholder` and `Snapshot` as pure functions. `GetTimelineStep` is the pure
specification of one timeline request. The class `AdviceCache` holds the mutable
`cachedAdvice` field. Its methods `Invalidate` and `GetTimeline` follow the
source step by step, and `GetTimeline` is proved against `GetTimelineStep`.
`RefreshCycleScenario` is a client: it drives one cache through two refresh
cycles using only the contracts.

`widget_session.dfy` (module `WidgetSession`) models a session: the sequence of
host calls, run one after another from a given cache value. It proves by
induction what the cache holds after any session. It also proves where every
displayed piece of advice comes from, and that a populated cache stays stable
while no refresh happens.

Modelling choices:

- The network call `try? await getAdviceSlip()` is an input of type
  `Option<AdviceSlip>`. `None` stands for every transport or decoding failure.
  The input is consumed only on a cache miss, and the `fetched` result reports
  whether it was.
- Time is integer seconds passed in by the caller. The entry date and the policy
  instant come from two separate clock reads (`entryClock`, `policyClock`). No
  order between the two reads is assumed, except in the lemma that needs it.
- A failed fetch returns before any entry is built
  (advice_slip_widget/advice_slip_widget.swift:62-64), so the completion is never
  called; the model gives `delivered == None` and never a `"..."` entry. The
  `?? "..."` fallback is kept in the entry construction and proved never taken.

## Model

| member | source | states |
|---|---|---|
| `AdviceSlipWidget.Placeholder` | advice_slip_widget/advice_slip_widget.swift:49-51 | the placeholder entry carries the given instant and the fixed placeholder advice, and has no cache input |
| `AdviceSlipWidget.Snapshot` | advice_slip_widget/advice_slip_widget.swift:53-56 | the snapshot entry equals the placeholder entry for the same instant |
| `AdviceSlipWidget.MakeTimeline` | advice_slip_widget/advice_slip_widget.swift:68-79 | the built timeline has exactly one entry, dated at the first clock read, showing the cached advice when there is one; its policy is "after the second clock read plus RefreshTime minutes" |
| `AdviceSlipWidget.GetTimelineStep` | advice_slip_widget/advice_slip_widget.swift:58-82 | a fetch is consumed iff the cache is empty; nothing is delivered iff the cache is empty and the fetch fails; a populated cache is unchanged; an empty one takes the fetched advice or stays empty; a delivered timeline is exactly one entry showing the (non-empty) cached advice with policy after the second read + 15 min |
| `AdviceSlipWidget.CacheHit` | advice_slip_widget/advice_slip_widget.swift:60-68 | with a populated cache, no fetch is consumed, the cache is unchanged and one entry with the cached advice is delivered, refreshing 15*60 s after the second read |
| `AdviceSlipWidget.MissThenSuccess` | advice_slip_widget/advice_slip_widget.swift:60-68 | with an empty cache and a successful fetch of slip `s`, the cache becomes `s.advice` and the one delivered entry shows `s.advice` |
| `AdviceSlipWidget.MissThenFailure` | advice_slip_widget/advice_slip_widget.swift:60-64 | with an empty cache and a failed fetch, nothing is delivered and the cache stays empty, so the next request consumes a fetch again |
| `AdviceSlipWidget.PolicyNotBeforeRefreshInterval` | advice_slip_widget/advice_slip_widget.swift:68-78 | when the second clock read is not earlier than the first, the next update instant is at least the entry date plus 15 minutes |
| `AdviceSlipWidget.AdviceCache.constructor` | advice_slip_widget/advice_slip_widget.swift:24 | the cache starts empty |
| `AdviceSlipWidget.AdviceCache.Invalidate` | advice_slip_widget/advice_slip_widget.swift:17-20 | the cache is empty afterwards, whatever it held before |
| `AdviceSlipWidget.AdviceCache.GetTimeline` | advice_slip_widget/advice_slip_widget.swift:58-82 | the new cache, the delivered timeline and whether a fetch was consumed are exactly those of `GetTimelineStep` on the old cache |
| `WidgetSession.ResponseAt` | advice_slip_widget/advice_slip_widget.swift:58-82 | in a session, the reply to each call is the reply that call gives on the cache left by all the calls before it |
| `WidgetSession.CacheIsFirstFetchSinceRefresh` | advice_slip_widget/advice_slip_widget.swift:17-66 | after any session that starts empty, the cache holds exactly the advice of the first successful fetch since the last refresh, or is empty if there was none |
| `WidgetSession.CachedAdviceWasFetched` | advice_slip_widget/advice_slip_widget.swift:60-66 | after any session that starts empty, a populated cache holds advice that one of the session's fetches returned |
| `WidgetSession.DeliveredAdviceIsFirstFetchSinceRefresh` | advice_slip_widget/advice_slip_widget.swift:60-78 | in a session that starts empty, every delivered timeline has one entry, and its advice is the first successful fetch since the last refresh before that request; the fallback branch is never taken |
| `WidgetSession.PopulatedCacheIsStable` | advice_slip_widget/advice_slip_widget.swift:60-68 | across any session without a refresh, a populated cache never changes, no fetch is consumed, and every timeline request delivers the same advice |
| `WidgetSession.SnapshotsIgnoreCache` | advice_slip_widget/advice_slip_widget.swift:49-56 | placeholder and snapshot requests leave the cache unchanged, and their reply is the same for every cache value |
| `WidgetSession.RefreshForcesRefetch` | advice_slip_widget/advice_slip_widget.swift:17-68 | whatever the cache held, a refresh followed by a timeline request with a successful fetch stores and shows the newly fetched advice |

## Left out

- The body of `getAdviceSlip`: it makes a URLSession request, decodes the JSON and calls `fatalError` on a bad URL. It is foreign I/O, so it is replaced by the `Option<AdviceSlip>` input.
- The `Task`/async execution and the completion-handler mechanism. Operations are atomic and sequential. This means the race where a refresh lands during an in-flight fetch (a lost invalidation) is not modelled.
- `Calendar`/`Date` semantics. Time is integer seconds, and adding minutes is plain addition of 60 seconds per minute.
- The constant `emoji` field of `SimpleEntry` and the intent's title metadata. Neither affects behaviour.
- SwiftUI views, the widget configuration, the preview and the refresh button. These are display code, including the "Next" label arithmetic.
