# SubredditPosts: cached listings and the listing poll loop

A Dafny model of the post-listing controller of Reddit.NET
(`src/Reddit.NET/Controllers/SubredditPosts.cs`). The controller keeps
eleven listings of one subreddit: best, hot, new, rising, top,
controversial, the mod queue and its four filters (reports, spam,
unmoderated, edited). Each listing has a field and a `*LastUpdated`
timestamp.

- A listing property serves its field while the timestamp plus 15 seconds
  is later than now, and otherwise calls its `Get*` method.
  The four mod-queue filter properties test the mod queue's timestamp and
  call `GetModQueue()` instead (see "## Findings").
- A `Get*` method fetches the listing, stamps it, stores it and returns it.
- `CreateMonitoringThread` maps a monitor key to the type of poll loop it
  starts.
- The poll loop `MonitorPostsThread` re-fetches its listing while it is
  not terminated and its subkey is still registered. It compares the old
  list with the new one and raises the listing's update event through
  `TriggerUpdate` when they differ. Then it sleeps for the number of
  monitors times the wait delay.

Modules:

- `ListingTypes` (listing_types.dfy): posts, the eleven listings, the
  requests a `Get*` method sends, and the outcomes that stand for the
  controller's exceptions. The web API is a function `Api` from request
  to `Option` of posts; `None` is a fetch that throws.
- `Routing` (routing.dfy): the key and type constants of the `Monitor*`
  methods, the three string switches (the key switch of
  `CreateMonitoringThread`, the type switch of the poll loop and the type
  switch of `TriggerUpdate`), and lemmas that they agree.
- `TtlCache` (ttl_cache.dfy): the freshness rule as pure functions over a
  slot (list plus timestamp), with lemmas about single reads and about
  sequences of reads.
- `ListDiff` (list_diff.dfy): the comparison the loop makes, as an
  abstract function, and a reference comparison by post identity with
  its laws.
- `PollSpec` (poll_spec.dfy): one poll iteration (`Step`) and a run of
  iterations (`Run`) as pure functions of what each iteration sees (a
  `Tick`), with lemmas about runs.
- `Controllers` (subreddit_posts.dfy): the class `SubredditPosts`. It has
  one field per listing and per timestamp, and the two time filters. Its
  methods update the fields in place and are proved against the `TtlCache`
  and `PollSpec` functions. Raised events go to a ghost log `updates`.

## Model

| member | source | states |
|---|---|---|
| Controllers.SubredditPosts.constructor | src/Reddit.NET/Controllers/SubredditPosts.cs:256-277 | each list passed in is stored, a null one becomes empty; no listing has a timestamp; both time filters are "all"; no event raised |
| Controllers.SubredditPosts.GetBest | src/Reddit.NET/Controllers/SubredditPosts.cs:286-294 | a successful fetch is stored, stamped with now and returned; a failing fetch leaves the listing and its timestamp unchanged; no other listing changes |
| Controllers.SubredditPosts.GetHot | src/Reddit.NET/Controllers/SubredditPosts.cs:303-311 | same as GetBest for "hot", with the request scoped to the subreddit and the `g` argument forwarded |
| Controllers.SubredditPosts.GetNew | src/Reddit.NET/Controllers/SubredditPosts.cs:320-328 | same as GetBest for "new", scoped to the subreddit |
| Controllers.SubredditPosts.GetRising | src/Reddit.NET/Controllers/SubredditPosts.cs:337-345 | same as GetBest for "rising", scoped to the subreddit |
| Controllers.SubredditPosts.GetTop | src/Reddit.NET/Controllers/SubredditPosts.cs:354-363 | same as GetBest for "top" with time filter `t`; the remembered time filter becomes `t` after a successful fetch |
| Controllers.SubredditPosts.GetControversial | src/Reddit.NET/Controllers/SubredditPosts.cs:372-381 | same as GetTop for "controversial" |
| Controllers.SubredditPosts.GetModQueue | src/Reddit.NET/Controllers/SubredditPosts.cs:383-407 | fetches location "modqueue" of the moderation queue, asking for "links", and stores, stamps and returns it as GetBest does |
| Controllers.SubredditPosts.GetModQueueReports | src/Reddit.NET/Controllers/SubredditPosts.cs:419-427 | as GetModQueue, at location "reports", into the reports listing |
| Controllers.SubredditPosts.GetModQueueSpam | src/Reddit.NET/Controllers/SubredditPosts.cs:439-447 | as GetModQueue, at location "spam", into the spam listing |
| Controllers.SubredditPosts.GetModQueueUnmoderated | src/Reddit.NET/Controllers/SubredditPosts.cs:459-467 | as GetModQueue, at location "unmoderated", into the unmoderated listing |
| Controllers.SubredditPosts.GetModQueueEdited | src/Reddit.NET/Controllers/SubredditPosts.cs:479-487 | as GetModQueue, at location "edited", into the edited listing |
| Controllers.SubredditPosts.Best | src/Reddit.NET/Controllers/SubredditPosts.cs:37-48 | the result and new state are the cache read `Read` of the best listing: the cached list while fresh, otherwise the fetch with default arguments |
| Controllers.SubredditPosts.Hot | src/Reddit.NET/Controllers/SubredditPosts.cs:54-65 | the cache read of the hot listing |
| Controllers.SubredditPosts.New | src/Reddit.NET/Controllers/SubredditPosts.cs:71-82 | the cache read of the new listing |
| Controllers.SubredditPosts.Rising | src/Reddit.NET/Controllers/SubredditPosts.cs:88-99 | the cache read of the rising listing |
| Controllers.SubredditPosts.Top | src/Reddit.NET/Controllers/SubredditPosts.cs:105-116 | the cache read of the top listing; a stale read re-fetches with the time filter last used, which stays |
| Controllers.SubredditPosts.Controversial | src/Reddit.NET/Controllers/SubredditPosts.cs:122-133 | the cache read of the controversial listing, with the time filter last used |
| Controllers.SubredditPosts.ModQueue | src/Reddit.NET/Controllers/SubredditPosts.cs:139-150 | the cache read of the mod-queue listing |
| Controllers.SubredditPosts.ModQueueReports | src/Reddit.NET/Controllers/SubredditPosts.cs:156-167 | as written: fresh or stale by the mod-queue timestamp; fresh returns the reports field, stale refreshes and returns the mod queue; the reports listing never changes |
| Controllers.SubredditPosts.ModQueueSpam | src/Reddit.NET/Controllers/SubredditPosts.cs:173-184 | as written, like ModQueueReports, for the spam listing |
| Controllers.SubredditPosts.ModQueueUnmoderated | src/Reddit.NET/Controllers/SubredditPosts.cs:190-201 | as written, like ModQueueReports, for the unmoderated listing |
| Controllers.SubredditPosts.ModQueueEdited | src/Reddit.NET/Controllers/SubredditPosts.cs:207-218 | as written, like ModQueueReports, for the edited listing |
| Controllers.SubredditPosts.ModQueueReportsIntended | src/Reddit.NET/Controllers/SubredditPosts.cs:156-167 | corrected: the cache read of the reports listing by its own timestamp and its own fetch |
| Controllers.SubredditPosts.ModQueueSpamIntended | src/Reddit.NET/Controllers/SubredditPosts.cs:173-184 | corrected: the cache read of the spam listing |
| Controllers.SubredditPosts.ModQueueUnmoderatedIntended | src/Reddit.NET/Controllers/SubredditPosts.cs:190-201 | corrected: the cache read of the unmoderated listing |
| Controllers.SubredditPosts.ModQueueEditedIntended | src/Reddit.NET/Controllers/SubredditPosts.cs:207-218 | corrected: the cache read of the edited listing |
| Controllers.SubredditPosts.TriggerUpdate | src/Reddit.NET/Controllers/SubredditPosts.cs:819-857 | exactly one update is raised, on the event of the given type; an unknown type raises nothing |
| Controllers.SubredditPosts.TakeAndFetch | src/Reddit.NET/Controllers/SubredditPosts.cs:750-800 | returns the listing's field as held before, then refreshes that listing with default arguments; no other listing changes; a failing fetch changes nothing |
| Controllers.SubredditPosts.PollOnce | src/Reddit.NET/Controllers/SubredditPosts.cs:750-813 | one loop iteration equals `Step`: an unknown type or a failing fetch fails and changes nothing; otherwise the listing is refreshed and the update `Step` raises is appended to the log |
| Controllers.SubredditPosts.MonitorPostsThread | src/Reddit.NET/Controllers/SubredditPosts.cs:740-817 | every iteration ran under the guard; an unknown type fails with "Unrecognized type" exactly when the first guard holds, changing nothing; otherwise it stops when the guard fails, the ticks run out, or a fetch fails; the final listing and the raised updates are those of `Run` over the iterations made; the sleeps are the start delay then one per iteration, scaled by the monitor count |
| Routing.CreateMonitoringThread | src/Reddit.NET/Controllers/SubredditPosts.cs:709-738 | an accepted key starts a loop whose type the poll switch knows, and whose listing's monitor key is that key; any other key fails with "Unrecognized key" |
| Routing.CreateMonitoringThreadKnowsEveryKey | src/Reddit.NET/Controllers/SubredditPosts.cs:493-738 | each `Monitor*` key maps to the same loop type as its `Monitor*Thread` |
| Routing.CreateMonitoringThreadRefusesOnlyUnknownKeys | src/Reddit.NET/Controllers/SubredditPosts.cs:711-714 | a key is refused exactly when no `Monitor*` method uses it |
| Routing.PollKind | src/Reddit.NET/Controllers/SubredditPosts.cs:752-800 | a type the poll switch accepts is the type string of the listing it polls |
| Routing.UpdateChannel | src/Reddit.NET/Controllers/SubredditPosts.cs:819-857 | a type the event switch accepts is the type string of the listing whose event it raises |
| Routing.EveryTypeRoutesToItsOwnList | src/Reddit.NET/Controllers/SubredditPosts.cs:752-857 | every listing's type is polled on that listing and raises that listing's event |
| TtlCache.Refresh | src/Reddit.NET/Controllers/SubredditPosts.cs:286-294 | a successful fetch stores the posts with stamp `now` and returns them; a failing one leaves the slot and reports the failure |
| TtlCache.FreshMeansYoungerThanTtl | src/Reddit.NET/Controllers/SubredditPosts.cs:41-42 | a slot is fresh exactly when less than 15 seconds old; a never-fetched slot is never fresh |
| TtlCache.ReadServesCacheIffFresh | src/Reddit.NET/Controllers/SubredditPosts.cs:37-48 | a fresh read returns the cached list and changes nothing, whatever the web API would answer; a stale read is a refresh |
| TtlCache.GuardedReadFollowsGuard | src/Reddit.NET/Controllers/SubredditPosts.cs:156-167 | the filter getters' read is fresh or stale by the mod-queue timestamp only |
| TtlCache.NeverFetchedReadFetches | src/Reddit.NET/Controllers/SubredditPosts.cs:221-232 | a slot seeded by the constructor but never fetched is fetched on its first read |
| TtlCache.RefreshedSlotServedForTtl | src/Reddit.NET/Controllers/SubredditPosts.cs:41-42 | after a refresh at `t`, reads before `t + 15` return the refreshed posts and reads from `t + 15` on refresh again |
| TtlCache.ReadAll | src/Reddit.NET/Controllers/SubredditPosts.cs:37-48 | a sequence of reads returns one result per read |
| TtlCache.ReadsWithinTtlServeSameList | src/Reddit.NET/Controllers/SubredditPosts.cs:37-48 | all reads before the stamp plus 15 seconds return the cached list and leave the slot as it was |
| TtlCache.SlotComesFromOneFetch | src/Reddit.NET/Controllers/SubredditPosts.cs:286-294 | after any reads the slot is the initial one or the posts of one successful fetch paired with that fetch's time |
| TtlCache.StampNeverMovesBack | src/Reddit.NET/Controllers/SubredditPosts.cs:286-294 | for reads in time order the timestamp never decreases |
| TtlCache.FilterGetterServesUnfetchedSeed | src/Reddit.NET/Controllers/SubredditPosts.cs:156-167 | with the mod queue fresh and the filter never fetched, the filter getter returns its empty seed where its own read fetches; once the mod queue is stale it returns the mod-queue posts |
| ListDiff.Missing | src/Reddit.NET/Controllers/SubredditPosts.cs:802 | the posts of one list absent from the other, and only those |
| ListDiff.IdentityDiff | src/Reddit.NET/Controllers/SubredditPosts.cs:802 | added is the new posts not in the old list, removed the old posts not in the new, changed iff some post is in one list only |
| ListDiff.MissingOfDisjoint | src/Reddit.NET/Controllers/SubredditPosts.cs:802 | nothing is dropped from a list with no post in the other |
| ListDiff.DisjointListsDiffCompletely | src/Reddit.NET/Controllers/SubredditPosts.cs:802 | between lists with no post in common, everything new is added and everything old removed |
| ListDiff.SameMembersAreUnchanged | src/Reddit.NET/Controllers/SubredditPosts.cs:802 | two lists with the same posts in any order compare as unchanged |
| PollSpec.Step | src/Reddit.NET/Controllers/SubredditPosts.cs:750-813 | an iteration succeeds iff the fetch does; the slot becomes the fetched list; at most one update, raised iff the comparison reports a change, carrying both lists and the diff on the listing's own event |
| PollSpec.WaitsFollowMonitorCount | src/Reddit.NET/Controllers/SubredditPosts.cs:815 | one sleep per iteration, each the monitor count that iteration saw times the wait delay |
| PollSpec.WaitsExtends | src/Reddit.NET/Controllers/SubredditPosts.cs:815 | one more iteration appends one more sleep |
| PollSpec.RunCompletesIffEveryFetchSucceeds | src/Reddit.NET/Controllers/SubredditPosts.cs:747-816 | a run completes exactly when every fetch in it succeeds |
| PollSpec.RunRaisesOnItsOwnEvent | src/Reddit.NET/Controllers/SubredditPosts.cs:802-813 | a run raises at most one update per iteration, all on the polled listing's event, and ends holding the last fetch stamped with its time |
| PollSpec.UnchangedListingRaisesNothing | src/Reddit.NET/Controllers/SubredditPosts.cs:802-813 | when every fetch returns the list held and the comparison finds no change between a list and itself, nothing is raised and the list stays |
| PollSpec.EveryUpdateIsAReportedChange | src/Reddit.NET/Controllers/SubredditPosts.cs:802-812 | every raised update carries lists the comparison reported as changed, and that comparison's added and removed posts |
| PollSpec.RunExtends | src/Reddit.NET/Controllers/SubredditPosts.cs:747-816 | a run one tick longer is the run followed by one more iteration |
| PollSpec.ScenarioSecondDiff | src/Reddit.NET/Controllers/SubredditPosts.cs:802 | comparing [A, B, C] with [A, C, D] adds D and removes B |
| PollSpec.HotScenarioFirstPoll | src/Reddit.NET/Controllers/SubredditPosts.cs:740-817 | the first poll of an empty never-fetched "hot" listing reports every fetched post as added |
| PollSpec.HotScenarioFirstTwoPolls | src/Reddit.NET/Controllers/SubredditPosts.cs:740-817 | fetching [A, B, C] then [A, C, D] raises two updates, the second adding D and removing B |
| PollSpec.HotScenario | src/Reddit.NET/Controllers/SubredditPosts.cs:740-817 | a third fetch of the unchanged [A, C, D] raises nothing more |

## Left out

- HTTP and JSON: `Listings.GetPosts` and the `Dispatch` endpoints are not part of this model. Each fetch is a call of the `api` parameter. Its `None` stands for any exception the transport or the decoding throws.
- The clock: `DateTime.Now` is the integer `now` parameter, in seconds. A getter and the `Get*` method it calls share one `now`, where the source reads the clock twice.
- `Listings.ListDiff` is not part of this model. The loop takes the comparison as the abstract `Differ`. `IdentityDiff` is a reference comparison, used only in the scenario lemmas.
- The monitor registry (the `Monitors` base class, its `Monitor(key, thread, subreddit)` toggle, `Terminate`, the `Monitoring` snapshot and `MonitoringWaitDelayMS`) is not part of this model. The loop sees the registry through each `Tick`. The wait delay is the `waitDelayMs` parameter.
- The eleven `Monitor*` methods and their `Monitor*Thread` bodies are left out: they only hand a key and a type to the registry and the loop. Their constants are `Routing.MonitorKey` and `Routing.MonitorType`.
- Threads: `CreateMonitoringThread` returns the loop type rather than a `Thread`. `Thread.Sleep` is recorded as a duration in `sleeps`.
- Concurrency: the model does not capture a getter and a poll thread racing on the same fields. Each method runs as one atomic step.
- The `On*Updated` event handlers and their subscribers are left out. A raised event is an entry in the ghost log `updates`.
- Aliasing of lists: the listing fields (`best`, `hot`, ..., `modQueueEdited`) hold `seq<Post>` values. In the source the getters (`Best`, `Hot`, ..., `ModQueueEdited`) return the cached `List<Post>` object itself and the constructor stores the caller's lists by reference. A caller that mutates such a list in place changes what later fresh reads return and what the poll loop takes as its old list; the model does not capture this.
- `PostsUpdateEventArgs` and `Post` carry only what the loop uses: a post's identity, and the two lists with the added and removed posts.
- Controllers.SubredditPosts.MonitorPostsThread: the loop type is looked up once, before the loop. This is equivalent to the source: an unknown type throws in the first iteration whose guard holds, and never later.
- Controllers.SubredditPosts.MonitorPostsThread: the loop body has no handler, so the exception of the first fetch that throws propagates out of the loop's thread; under .NET's default policy that ends the process. The model ends the loop with that error.
- Controllers.SubredditPosts.MonitorPostsThread: the sleep `Monitoring.Count() * MonitoringWaitDelayMS` is an int32 product that wraps past 2^31-1, and `Thread.Sleep` then throws or never returns; the model's product is unbounded.
- Controllers.SubredditPosts.MonitorPostsThread: the loop calls `GetTop()` and `GetControversial()` with their defaults, so each poll of those listings resets the remembered time filter to "all". This follows the code.

## Findings

| source | as written | input that shows it | evidently intended | confidence | as-written member | corrected member |
|---|---|---|---|---|---|---|
| src/Reddit.NET/Controllers/SubredditPosts.cs:156-218 | the `ModQueueReports`, `ModQueueSpam`, `ModQueueUnmoderated` and `ModQueueEdited` getters test `ModQueueLastUpdated` and call `GetModQueue()` | mod queue fetched at second 0, reports never fetched: reading `ModQueueReports` at second 1 returns the empty seed list and fetches nothing; at second 15 it returns the mod-queue posts, not the reports | each filter getter tests its own `*LastUpdated` and calls its own `GetModQueue*` | medium, not executed | Controllers.SubredditPosts.ModQueueReports, TtlCache.FilterGetterServesUnfetchedSeed | Controllers.SubredditPosts.ModQueueReportsIntended |
