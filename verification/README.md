# Verification of the metrics proxy's caches, filters, configuration check and rendering

The metrics proxy stands between Prometheus and its exporters.  For each proxied handler it
may keep whole HTTP responses for a while (the *deadline cache*), it filters the samples of
each scrape (dropping them, serving them from a *sample cache*, adding noise), and it renders
what is left.  This project models those parts and proves what they promise, for all inputs,
all interleavings and all runs.  `dafny verify dfyconfig.toml` checks everything.

## What is modelled

**The deadline cache** (`deadline_cacher.dfy`, `cacher_*.dfy`, `single_flight.dfy`,
`fetch_bound.dfy`). The cache is a step relation: `Enabled` and `Next` over eleven actions, one
per stretch between two awaits of `get_or_insert_with` and of the detached removal task, plus the
dropping of a request at any await (the request timeout does that) and the passing of time. The
state has the hash map, the entry guards with their write locks, the global mutex with its queue,
and the removal timers, which remove *by key*. A run is any sequence of enabled actions from the
empty cache, with any number of requests and keys. The class `Cacher` holds the same fields and
performs each stretch step by step, each method taking exactly the protocol's step; `Drive` runs
them in any order, and `GetOrInsertWith` is the whole call with other tasks running at each of its
awaits. Some fields record history only (owners, start and completion times, queue tickets); no
action depends on them. The mutex queue is first in, first out, as tokio documents its fair mutex.

**The HTTP layer** (`http_cache.dfy`): the cache key and which responses may be kept.

**The sample cache and the filters** (`series_key.dfy`, `sample_cache.dfy`, `filters.dfy`,
`metrics_proxier.dfy`, `filter_laws.dfy`, `filter_runs.dfy`, `resolution_age.dfy`, `noise.dfy`).
`MetricsProxier.ApplyFilters` is the nested loop over samples, selectors and actions with its keep
flag, its must-cache flag and the shared mutable cache; it is proved to compute, for some noise
draws in range, what the function `FilterSamples` says, and the laws are proved about that
function for all draws. A series' *plan* is the list of the actions of all selectors that match
it; a *visit* is one sample going through the filters; a run is any sequence of visits in the
order in which their scrapes lock the cache, with clock readings in any order. Regular expressions
are arbitrary sets of strings, and noise draws arbitrary reals in their range. A sample is
*ambiguous* if it has a label named `__name__` that differs from its metric; instants and
durations are counted in ticks of the clock.

**The configuration** (`config.dfy`, `listener_groups.dfy`): the one-pass conflict check and the
grouping by listening address.

**Rendering** (`label_text.dfy`, `rendering.dfy`): label text, sample lines, documentation lines.
Numbers are printed by arbitrary functions.

**Both caches in a row** (`end_to_end.dfy`): one proxied target in operation. A composed run
interleaves the actions of the deadline cache with the filter passes of its fetches, all on one
sample cache; a fetch completes with the samples of its own pass.

`text_order.dfy` has the string order and the sorts, `samples.dfy` the parsed metrics.

## Where the code and its documentation differ

The model follows the code.

- `src/cache.rs:124-130` promises that parallel requests for one resource are consolidated into
  one backend request. That holds for a key exactly when its fetches never come back uncacheable
  (`SingleFlightExactly`): an uncacheable completion also schedules a removal, which may take
  out a later request's guard (`TwoInFlight` is such a run). What always holds is
  `Conservation`, and the bound it gives is attained for every number of uncacheable completions
  (`BoundAttained`).
- `src/cache.rs:120-123` says that requests for different resources proceed without contention.
  The entry's read lock is awaited at line 164 while the global mutex is held, so a fetch of one
  key can keep requests for all keys waiting (`ForeignFetchBlocks`, `AllKeysWaitForTheFetch`).
  Requests for a key never get the mutex stuck exactly when they do not overlap
  (`MutexNeverStuckExactly`).
- `README.md:148-155` promises noise between minus and plus the amplitude. Quantizing can round
  up: the promise holds exactly when the amplitude, counted in quanta, does not
  (`WithinAmplitudeExactly`).
- `README.md:93-95` allows two listeners to share host, port and handler if their protocols
  differ; the code refuses them (`Config.Validate`).
- `README.md:82-91` gives every `listen_on` its own timeouts. A server takes those of the first
  proxy on its address; later ones are ignored unless they agree (`TimeoutsExactly`).
- `README.md:144-147` promises to serve a metric from the cache unless the cache entry is older
  than the resolution. With two different resolutions that match one series, a miss on one and a
  hit on the other give an old sample a new stamp, over and over, and its age has no bound.
  `AgeKeptExactly` has the exact condition on the matching actions: whatever is served was
  scraped within the resolution, in every run, if and only if they drop the series, or all
  resolutions are equal, or none exceeds one tick.

## Model

| member | source | states |
|---|---|---|
| CacherInvariant.StepKeepsInv | src/cache.rs:151-222 | Every step keeps the protocol invariant: a guard is write-locked and empty while its creator fetches, holds exactly the creator's cacheable value afterwards, and nothing after a drop; linked guards sit under their own key and are its newest; timers never run early and leave their guard unlinked; nobody passes the mutex before a removal that queued earlier. |
| CacherInvariant.RunKeepsInv | src/cache.rs:151-222 | The invariant holds after any run, with any cancellations. |
| CacherInvariant.VariantsChange | src/cache.rs:184-187 | The map changes in two ways only: a new guard goes in under the requester's key, or a removal takes a key out. |
| CacherInvariant.FifoKept | src/cache.rs:159-159 | A request that drew its place in the mutex queue after a removal is served only after that removal has run. |
| CacherInvariant.LedKept | src/cache.rs:162-164 | No request is led to a guard whose removal queued before it did. |
| CacherSafety.HitIsOneCacheableFetch | src/cache.rs:173-199 | Whatever is returned from cache is the value of one completed, cacheable fetch that another request made under the same key; nothing failed, uncacheable or cancelled is ever served to somebody else. |
| CacherSafety.OneFetchPerGuard | src/cache.rs:184-193 | No two requests ever fetch into one guard. |
| CacherSafety.FilledOnce | src/cache.rs:195-199 | A filled guard keeps its value for the rest of any run. |
| CacherSafety.NoHitBehindRemoval | src/cache.rs:158-178 | A request that reaches the mutex after the removal of a fetch has queued there never gets that fetch's value, whatever happens before and after. |
| CacherSafety.HitAge | src/cache.rs:203-210 | If removals queue at most `lag` after they are due, every hit arrived at most `staleness + lag` after its fetch completed, whatever other keys were blocking. |
| CacherConservation.StepConserves | src/cache.rs:193-221 | No step lets the loose fetches of a key outgrow its uncacheable completions. |
| CacherConservation.Conservation | src/cache.rs:158-221 | In every reachable state, per key: fetches in flight with an unlinked guard plus pending removals whose own guard is not both linked and filled are at most as many as the uncacheable completions. |
| CacherConservation.FetchesBounded | src/cache.rs:124-130 | Per key, at most one fetch more is in flight than fetches have completed uncacheable. |
| CacherConservation.BackendRate | src/cache.rs:161-210 | While no fetch of a key has completed uncacheable, no fetch of it starts earlier than `staleness` after any completed one before it, cancellations or not. |
| SingleFlight.TwoInFlight | src/cache.rs:195-210 | A run in which two requests fetch one key at the same time. |
| SingleFlight.SingleFlightExactly | src/cache.rs:124-130 | For any policy of which keys may come back uncacheable: a key is fetched by one request at a time in all states allowed if and only if its fetches never come back uncacheable. |
| SingleFlight.ForeignFetchBlocks | src/cache.rs:159-164 | For any two keys, a reachable state in which a request for the second waits at the mutex although only the first is fetched. |
| SingleFlight.MutexNeverStuckExactly | src/cache.rs:120-123 | For any policy of which keys may have overlapping requests: in all states allowed no request for a key owns the global mutex without being able to go on, if and only if requests for that key do not overlap. |
| FetchBound.BoundAttained | src/cache.rs:193-210 | For every n, a reachable state with exactly n uncacheable completions of a key and n + 1 fetches of it in flight. |
| CacherProgress.StepUsesWork | src/cache.rs:156-221 | An arrival brings eight units of work, time none, and every other step uses some up. |
| CacherProgress.BoundedWork | src/cache.rs:156-221 | No run takes more than eight task steps per request, its removal timer included. |
| CacherProgress.NoDeadlock | src/cache.rs:159-193 | Unless everything is finished, some task can step by itself, or only sleeps are left to wait for. |
| CacherProgress.EveryoneCanBeServed | src/cache.rs:156-221 | From every reachable state a run without arrivals or drops answers every request not dropped before and leaves the map with nothing but empty guards of dropped fetches. |
| CacherProgress.AllKeysWaitForTheFetch | src/cache.rs:162-164 | While that is so, no waiting request of any key is served until the fetch ends or one of the two requests is dropped. |
| CacherTasks.Cacher.InsertGuard | src/cache.rs:184-187 | A new, locked, empty guard replaces whatever the key was linked to, and the mutex is released. |
| CacherTasks.Cacher.ReadGuard | src/cache.rs:164-187 | Reading the guard is the protocol's step: return the value held, or install a new guard over an empty one. |
| CacherTasks.Cacher.FinishFetch | src/cache.rs:193-221 | The resolved fetch fills its guard exactly if it may be cached, always spawns a removal, and unlocks. |
| CacherTasks.Cacher.DropRequest | src/server.rs:169-172 | A request dropped past the queue gives back the mutex or its guard's lock; what the map links, what guards hold and the timers stay, so a dropped fetch leaves its guard linked and empty with no removal to come. |
| CacherTasks.Cacher.RemoveByKey | src/cache.rs:207-209 | The removal's key is linked to nothing afterwards, whatever guard it was linked to; all other links, all guards and all requests are untouched. |
| CacherTasks.Cacher.Drive | src/cache.rs:151-222 | Any schedule of the stretches of any number of calls and removals is a run of the protocol, and the object keeps the protocol's invariant. |
| CacherTasks.CanResume | src/cache.rs:159-193 | From every state the invariant allows, the other tasks can let an awaiting request go on. |
| CacherTasks.Cacher.ReadLinked | src/cache.rs:164-178 | Whatever others do while the read lock is awaited, the value taken is the one the map links to the key then, and it is what another request fetched, cacheable, under that key. |
| CacherTasks.Cacher.GetOrInsertWith | src/cache.rs:151-222 | The whole call with arbitrary other tasks at each await takes effect at one instant, owning the mutex: the value linked to the key then is returned and flagged cached, and was fetched by another request under the key; with none, the future's value is returned and kept exactly if it may be cached, its removal scheduled. |
| CacherTasks.Cacher.GetOrInsertAlone | src/cache.rs:151-222 | The call with nobody else about: the linked value, or the future's, and the whole new state. |
| CacherTasks.CallAloneIsARun | src/cache.rs:151-222 | The undisturbed call is a run of the protocol, so it leads from reachable to reachable states. |
| HttpCache.KeySeparates | src/cache.rs:302-307 | Two requests share a cache key if and only if URI, rendered Authorization and rendered Proxy-Authorization are all equal. |
| HttpCache.FetchAnswers | src/cache.rs:312-346 | The fetching request gets the reply as it is, kept exactly if its status is from 200 to 299; for a failed call or body status 500, no headers and the reason, never kept. |
| HttpCache.HitServesSameResource | src/cache.rs:312-351 | A response from the cache is unchanged what the backend replied, with a status from 200 to 299, to another request with the same three parts. |
| SeriesKey.OrderedLabelSet | src/cache.rs:35-59 | The key has exactly the pairs of metric name and labels, sorted by name; for unambiguous samples it is one fixed key. |
| SeriesKey.CanonicalExactly | src/cache.rs:52-57 | The key is independent of map iteration order and of how the unstable sort breaks ties if and only if no label named `__name__` contradicts the metric name. |
| SeriesKey.KeyTellsSeries | src/cache.rs:31-59 | Unambiguous samples have equal keys if and only if metric and label map are equal. |
| SeriesKey.KeyTellsAmbiguity | src/cache.rs:31-59 | Ambiguous samples share keys with ambiguous ones only. |
| SampleCache.FindExactly | src/cache.rs:84-97 | A lookup hits exactly when there is an entry younger than the staleness and the clock is not below the staleness; it returns that entry's sample. |
| SampleCache.ShelfOfPut | src/cache.rs:100-109 | Filing by key is filing by series: a stored sample replaces the entry of its own series and no other; an ambiguous one touches no unambiguous series. |
| SampleCache.SampleCacheStore.Get | src/cache.rs:76-98 | The lookup by key is the lookup by series; for an ambiguous sample only an ambiguous one can come back. |
| SampleCache.SampleCacheStore.Put | src/cache.rs:100-109 | The store by key is the store by series, and keeps every entry under a key of its own sample. |
| Filters.Round | src/proxy.rs:359-360 | Rounding goes to the nearest integer, halves away from zero. |
| Filters.MatchedText | src/proxy.rs:284-323 | The text a selector matches, source label by source label: the metric for `__name__`, otherwise the label's value, nothing for an absent label, and the separator between any two. |
| Filters.DefaultSelector | src/config.rs:151-153 | With the default source label a lone selector applies its actions exactly to the series whose metric its expression matches. |
| Filters.PerturbShifts | src/proxy.rs:361-382 | Adding an offset raises every number of a value by it and leaves its kind, bounds and quantiles; nothing else does. |
| Filters.RunConcat | src/proxy.rs:317-392 | Running the plans of two selectors in turn is running their concatenation. |
| Filters.RunKeepsSeries | src/proxy.rs:326-388 | No action changes metric or labels, cached samples included. |
| Filters.FilteringKeepsShelfFiled | src/proxy.rs:409-411 | Filtering keeps every cache entry under the series of its own sample. |
| MetricsProxier.MetricsProxier.JoinLabelValues | src/proxy.rs:317-323 | The loop yields the text that `MatchedText` describes; for the default source label that is the metric. |
| MetricsProxier.MetricsProxier.AddNoise | src/proxy.rs:346-388 | Every number of the value rises by one and the same quantized draw from the amplitude's range; kind, bounds, quantiles and the rest of the sample stay. |
| MetricsProxier.MetricsProxier.ApplyAction | src/proxy.rs:326-389 | One action does what `Act` says with the unambiguous entries of the cache, for some draw in range; an ambiguous sample stays ambiguous. |
| MetricsProxier.MetricsProxier.ApplySelector | src/proxy.rs:318-391 | A selector runs its actions in order on an unambiguous sample it matches, and does nothing to one it does not. |
| MetricsProxier.MetricsProxier.ApplySelectors | src/proxy.rs:317-392 | All selectors together run the series' plan, the actions of the selectors that match it, in order. |
| MetricsProxier.MetricsProxier.ApplyFilters | src/proxy.rs:283-417 | For any scrape, the nested loop with its shared cache makes of the unambiguous samples and their cache entries what `FilterSamples` makes of them alone, for some draws in range, whatever ambiguous samples there are among them; the documentation is that of all samples kept. |
| FilterLaws.VerdictByPlan | src/proxy.rs:327-332 | A sample is kept if and only if the last keep or drop of its plan is not a drop, whatever the cache, time and noise. |
| FilterLaws.OutputIsKeptSeries | src/proxy.rs:309-413 | The output has, in input order and with unchanged metric and labels, exactly the samples so kept. |
| FilterLaws.DocsFollowSamples | src/proxy.rs:401-407 | A metric's documentation comes out, unchanged, if and only if the backend sent it and a sample of the metric came out. |
| FilterLaws.StoredOnMissOnly | src/proxy.rs:341-344 | With agreeing resolutions, a sample must be stored exactly when its series is looked up and not found fresh. |
| FilterLaws.MissIgnoresShelf | src/proxy.rs:341-344 | On a miss a sample goes through as if nothing had ever been cached. |
| FilterLaws.HitServesEntry | src/proxy.rs:341-343 | On a hit with no noise after the reduction, the entry itself comes out. |
| FilterLaws.RunOrigin | src/proxy.rs:324-390 | For any plan: a sample must be stored exactly if some resolution misses; if one hits, what comes out is the cached sample with noise at most, and without any if the plan has its noise first; otherwise it is what comes out with no cache at all. |
| FilterLaws.StoresOwnExactly | src/proxy.rs:409-411 | Over every cache, what a plan stores is what it makes of the scraped sample alone, if and only if all its resolutions are equal. |
| FilterRuns.ScrapeExtendsRun | src/proxy.rs:305-414 | A scrape under the lock leaves the cache that the run of its visits leaves. |
| FilterRuns.ScrapeEmits | src/proxy.rs:409-412 | Every sample that comes out of a scrape is what one of its visits let through. |
| FilterRuns.StampsApart | src/proxy.rs:409-411 | Over any run, an entry stays until one at least `resolution` younger replaces it, even if clock readings come out of order. |
| FilterRuns.ApartExactly | src/cache.rs:86-94 | A visit keeps stamps apart for every cache if and only if its clock reading is not below the resolution. |
| FilterRuns.TimeResolution | src/proxy.rs:306-343 | Two emissions of a series are the same sample, whatever backend and noise did in between, or the entry behind the later is at least `resolution` younger. |
| FilterRuns.EmissionAge | src/proxy.rs:341-344 | The entry behind every emission is less than `resolution` older than the scrape's clock. |
| FilterRuns.EmissionIsEntry | src/proxy.rs:409-412 | With no noise after the reduction, what is emitted is what the cache then holds. |
| FilterRuns.EntryWasEmitted | src/proxy.rs:394-412 | Every cache entry was emitted by an earlier visit at its stamp; dropped samples are never stored. |
| FilterRuns.EntryIsFresh | src/proxy.rs:341-344 | With agreeing resolutions, an entry is what its own visit made of its own scraped sample: its stamp is the time it was scraped and processed. |
| ResolutionAge.EntryOrigin | src/proxy.rs:306-344 | Over any run, for plans with agreeing resolutions or none above one tick: behind each entry is one visit that scraped it, not before its stamp. |
| ResolutionAge.AgeBroken | src/proxy.rs:409-411 | With two different resolutions, the larger above one tick, and no drop: for every bound a run that serves a sample scraped longer ago. |
| ResolutionAge.AgeKeptExactly | src/proxy.rs:306-344 | For any series and any bound not below its resolutions: in every run all that is served was scraped less than the bound before, if and only if the plan drops the series, or its resolutions agree, or none exceeds one tick; if no noise gets on top of cached samples, what is served is exactly what that visit made of it. |
| Noise.QuantizedNearest | src/proxy.rs:359-360 | Quantizing moves a draw by at most half a quantum. |
| Noise.QuantizedReach | src/proxy.rs:357-360 | Quantized noise is a multiple of the quantum and at most quantum times the rounded amplitude-to-quantum ratio. |
| Noise.WithinAmplitudeExactly | README.md:148-155 | Noise stays within the amplitude for every draw if and only if the amplitude, counted in quanta, does not round up. |
| Noise.HitValue | src/proxy.rs:341-360 | On a hit the cached value comes out as it is if a reduction follows the noise; if none does, all its numbers are shifted once more. |
| Noise.NoiseBound | src/proxy.rs:346-411 | Over any run, every number emitted differs from the number scraped for the series by one and the same whole number of quanta, at most the reach when a reduction follows the noise or none matches, at most twice that when the noise comes last. |
| Config.HandlerKeyTells | src/config.rs:487-490 | The text of address and handler tells both. |
| Config.CompareProtocols | src/config.rs:506-544 | A conflict is found exactly when the protocols differ, and names certificate, key or protocol as what differs. |
| Config.CheckAddress | src/config.rs:505-554 | A proxy is compared with the first on its address only; that is enough for all of them. |
| Config.CheckProxy | src/config.rs:486-555 | One proxy: a real conflict with an earlier one, or the proxies up to here are pairwise compatible. |
| Config.CheckProxies | src/config.rs:484-555 | The linear pass finds no conflict if and only if all proxies are pairwise compatible. |
| Config.Validate | src/config.rs:484-567 | A configuration is accepted, unchanged, if and only if no two proxies share address and handler, all on one address agree on protocol, certificate and key, and telemetry has an address of its own; a refusal names the earliest real conflict. |
| ListenerGroups.Group | src/config.rs:590-632 | The servers of the map, each once: per address the first proxy's listener, per handler the first proxy's target. |
| ListenerGroups.NothingSkipped | src/config.rs:614-629 | For conflict-free proxies the branch that drops a proxy silently is never taken. |
| ListenerGroups.GroupingIsLossless | src/config.rs:583-634 | For conflict-free proxies, servers have distinct addresses; each proxy's backend, filters and cache duration sit under exactly its address and handler at a server that speaks its protocol, and nothing else sits anywhere. |
| ListenerGroups.OffersReadBack | src/config.rs:590-632 | Address, handler, backend, filters and cache duration of all proxies can be read back from the servers. |
| ListenerGroups.CountsAgree | src/config.rs:590-632 | The servers' handlers are as many as the proxies. |
| ListenerGroups.TimeoutsExactly | src/config.rs:618-619 | Every proxy gets its own timeouts if and only if all proxies on one address agree on them. |
| LabelText.RenderLabels | src/proxy.rs:107-123 | Whatever order the labels are iterated in, the text is one and the same. |
| LabelText.LabelsTextSpelled | src/proxy.rs:107-123 | That text: nothing without labels, otherwise in braces and with commas all items `name="value"` in ascending order and the extra one last. |
| LabelText.LabelsTextTells | src/proxy.rs:107-123 | Label texts, and what follows them, are equal if and only if label maps and extra labels are, unless a value holds what reads as its own end and a further label; other quotes in values are harmless. |
| LabelText.ForgedLabelsCollide | src/proxy.rs:108-113 | For any two labels whose items sort in order, one label whose value spells out the end of the first and the second renders to the same text as both. |
| Rendering.RenderSample | src/proxy.rs:125-169 | A plain value gives one line with no extra label; a histogram one line per bucket with its bound, `+Inf` or `-Inf` as `le`; a summary one per quantile; each with metric, labels and the printed count. |
| Rendering.LineTells | src/proxy.rs:159-166 | Two lines are equal if and only if metric, labels, extra label and printed number are, under the same condition on values. |
| Rendering.RenderBlock | src/proxy.rs:183-200 | A sample whose documentation is left has it put before its lines, as one HELP and one TYPE line, and used up. |
| TextOrder.LeqExactly | src/proxy.rs:113-113 | Texts are ordered by the first character in which they differ, a text before its continuations. |
| TextOrder.SortStable | src/proxy.rs:173-176 | The stable sort: a rearrangement in ascending order with elements of equal name in the order they had. |
| Rendering.RenderScrapeData | src/proxy.rs:171-208 | The output is the samples' texts, one block each, none lost or invented, ascending by metric and otherwise in input order, documentation at the first of each metric. |
| Rendering.MetricsContiguous | src/proxy.rs:176-176 | Samples of one metric stand together in the output. |
| Rendering.HeaderOnce | src/proxy.rs:183-204 | A metric has one documentation header, right before its first sample, with its help text and the word for that sample's kind, if it has a sample and is documented, and none otherwise. |
| Rendering.FilteredHeaders | src/proxy.rs:276-280 | After filtering, a metric has a header, with the backend's text, if and only if one of its samples was kept and the backend documented it. |
| EndToEnd.RunSound | src/server.rs:144-153 | Every run of a target keeps: the sample cache is what the visits so far made it, each visit falls into its fetch, and every page with samples has those of its own fetch's pass, dropped fetches and all. |
| EndToEnd.VisitBehind | src/proxy.rs:276-278 | Behind every sample of a fetched page is one visit of the run that scraped it, and the fetch began less than the resolution after that visit. |
| EndToEnd.EndToEndAge | src/server.rs:144-153 | In every composed run of both caches: a sample in an answer was scraped by one visit of the run; a request that fetched arrived less than the resolution after it, one that hit less than the resolution, the duration of the fetch that built the response, `staleness` and `lag` together. |
| EndToEnd.AgeAttained | src/server.rs:144-153 | The bound for hits is exact: for every `staleness`, `lag`, fetch duration and resolution, some composed run answers a hit with a sample one tick short of it, the fetch that first scraped the sample having been dropped. |

## Left out

- HTTP serving, TLS, sockets, header relaying and filtering, status mapping and `src/tokiotimer.rs`: input and output; of the timeouts only "a request may be dropped at any await" is kept.
- Scraping and parsing the backend's text: the parser is a library that is not part of this model, so nothing is said about reading rendered text back with it.
- Regular expressions, their compilation and anchoring: a selector matches an arbitrary set of strings.
- YAML, URL and certificate loading, error texts, counters and `main`: plumbing. A conflict is modelled by its kind and the positions of the proxies involved.
- Floating point: values and noise are exact reals and numbers are printed by arbitrary functions; rounding, overflow, infinities as counts and not-a-number are not modelled.
- The `Accept` header: it is relayed to the backend but is not part of the cache key, and the model has no claim about it.
- Fairness inside tokio: that the mutex serves its waiters first in, first out is an assumption, and spawned tasks may start any time.
- MetricsProxier.MetricsProxier.AddNoise: the code panics for an amplitude not above zero, and a quantum of zero yields not-a-number; both are excluded by a precondition.
- MetricsProxier.MetricsProxier.ApplyFilters: says of ambiguous samples only that they stay ambiguous, bring their metric's documentation and leave all others alone; which of them share an entry depends on the iteration order of a hash map (`SeriesKey.CanonicalExactly`).
- SampleCache.SampleCacheStore.Get: for ambiguous samples it says only that some sorted key of the sample is looked up.
- SampleCache.SampleCacheStore.Put: for ambiguous samples it says only that the sample is stored under some sorted key of its own.
- CacherTasks.Cacher.GetOrInsertWith: describes calls that are not dropped; what a dropped one leaves behind is `DropRequest`, and the protocol's runs have drops at every await.
- CacherTasks.Cacher.GetOrInsertAlone: describes the call when nobody is at the mutex and nobody fetches the key; `GetOrInsertWith` has the others.
- HttpCache.KeySeparates: speaks of the rendered header values; that rendering escapes line breaks is taken from the HTTP library.
- LabelText.LabelsTextTells: label names `le` and `quantile`, names with quotes, and values that forge a label are excluded. The condition on values is sufficient; `LabelText.ForgedLabelsCollide` shows it necessary where the forged label sorts after the forging one.
- Noise.NoiseBound: for plans with one noise action.
- EndToEnd.EndToEndAge: both caches read one clock, and, as in all laws about `FilterSamples`, samples are the unambiguous ones; for plans that are not steady the age has no bound (`ResolutionAge.AgeKeptExactly`).
