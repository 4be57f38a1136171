# Verified model of a torrent web UI's core

A Dafny model of the stateful core of a web front end for rtorrent, and proofs of what
that core promises. `dafny verify dfyconfig.toml` checks the whole project.

Six parts of the system are modelled.

**Traffic history** (`Series`, `Tiers`, `Gauges`, `HistoryStore`, `HistoryRuns`, `GaugeRuns`,
`HistoryGc`, `HistoryDedup`, `RateGrid`, `Rebuild`, `RebuildStore`). The SQLite tables are maps,
and polls, gauge samples, maintenance passes and restarts are the steps of a state machine, with
failing commits, partly failing refreshes and every single failing statement of a pass as explicit
outcomes. Everything is measured against one definition, `Series.CumAt`: the last cumulative value
at or before x. Deduplication, the rollup chain raw -> 1m -> 1h -> 1d, pruning, the rebuild of the
global series and the query-time rate grid are each proved to be a fast form of it, over whole runs.
`HistoryStore.Store` is the object that keeps the tables; its methods are proved equal to the steps
the run theorems are about.

**Live replication** (`Wire`, `Delta`, `TorrentStore`, `Hub`, `Poller`, `Driver`,
`DriverInvariants`, `Staleness`, `DriverSigns`, `SseDriver`, `Tab`, `Replication`, `ReplicationServer`,
`ReplicationRuns`, `ReplicationGap`). Each component is an object proved against a specification
function: the poller's tick, the hub with its bounded channels, the browser's row store, the stream
driver with the page lifecycle around it. `Replication` puts the specifications together as one labelled
transition system whose steps interleave freely: a tick publishes one hub operation at a time, so a
subscription can land between caching a snapshot and broadcasting its delta. The main theorems say
that the browser's rows are those of exactly one tick as long as it has warned of no gap, and exactly
when it does warn.

**Tracker-host cache** (`Decimal`, `TrackerCache`). Concurrent fetches that park a marker and
commit only where it is still in place, against toggles that delete entries.

**Monotone chart path** (`Charts`), over the reals. **SCGI framing** (`Scgi`), against a decoder
written from section 3 of the SCGI specification. **Piece bitfield** (`Pieces`), encoder and
decoder.

## Where code and comments differ

- The comment at internal/insight/history/store.go:75-77 says that the rollup windows only bound
  work. They also bound the schedule. Of the rows written since the last pass the next one finds
  those that are at most 1800 s old and not yet pruned. However many there are, it leaves the tiers
  exact if and only if, at each level, every row it does not find that is the last of a bucket still
  retained has the value of the last found row of that bucket (`Tiers.PassIsExactIff`; for whole runs
  with any schedule and any failures, `HistoryRuns.TiersAreExactIff`). Where only one row was written
  since the last pass, with a value that moved, this comes down to a pass within 1800 s of the row, or
  so late that no tier would retain it (`Tiers.RowSurvivesIff`). A pass that fails to roll up but
  prunes raw in between lowers the bound to 900 s (`Tiers.FailedRollupIff`). `HistoryRuns.TiersAreExact` holds while every pass
  comes within 1800 s of the last one that rolled everything up and within 900 s of it if raw rows
  have been pruned since; the code's 30 s ticker keeps far inside that unless the process is
  suspended or the database fails for a quarter of an hour.
- The comment at internal/insight/history/store.go:650-653 says that removed torrents always have a seen
  row and so are still collected. The first-sighting insert ignores its errors and the poll still
  commits, so a torrent can have rows and a dedup entry without a seen row. Removed before a later
  poll records a sighting, it is never collected, and re-added with the same counter it gets no
  baseline row. `HistoryGc.AbsentIsPurgedIff` and `HistoryGc.ReaddedGetsBaselineIff` give the exact
  condition: some committed poll since it last lost its seen row listed it and recorded its first
  sighting. A pass whose delete of the rows fails while that of the seen row succeeds leaves such rows
  too (`HistoryGc.FailedDeleteOrphans`).
- The comment at internal/insight/history/store.go:659-660 says that a re-added torrent with an
  unchanged counter must still get a baseline row, for which a purge drops the dedup entry. It drops
  those its query listed, and deletes the rows of all that are stale whether or not that query
  failed. An entry that outlives its rows swallows the reading (`HistoryDedup.UnlistedPurgeMasks`).
  Dedup changes no reading if and only if no poll is masked in that way
  (`HistoryDedup.DedupIsInvisibleIff`), and none is while each pass lists a hash whose rows it deletes
  (`HistoryDedup.DedupIsInvisible`).
- The comment at internal/rpc/torrents.go:123 says that a NUL byte can never start a host. The
  fallback of `trackerHost` returns the announce string itself, so an announce URL that starts with a
  NUL gives such a host. For every daemon, a poll shows the host an earlier poll cached if and only if
  it does not start with a NUL (`TrackerCaches.ShownIffPlain`), and markers can be told from hosts in
  every run, whatever is toggled, if and only if no usable host of any torrent does
  (`TrackerCaches.MarkersAreFlightsIff`).
- The comment at web/src/lib/sse-driver.ts:200-203 says that gaps within a connection are impossible.
  A subscriber whose channel was full when a tick was broadcast is given up, but stays registered
  until its handler notices, and meanwhile its channel may be drained and refilled with later ticks.
  The ticks of a stream follow each other if and only if none of them found room after a newer one
  was lost (`ReplicationRuns.StreamIsPathIff`), and in every run the browser warns of a gap exactly as
  often as it is handed, fresh, a tick that follows a lost one (`ReplicationRuns.WarnsIffLost`). It does
  happen (`Hubs.KilledRunSkips`, `ReplicationGap.GapCanBeSeen`). A subscriber that was never given up
  has lost nothing.

## Assumptions

Hashes are unique within one tick, and no torrent has the empty hash. Clocks given to the history
store do not go backwards where a theorem says `Scheduled`, `Frequent` or `Timely`. The browser dispatches
nothing from an event source that is CLOSED (section 9.2 of the HTML Living Standard), and the
document's visibility and its event change together. Timers may fire at any moment they are
pending. Trackers of a torrent change only through the toggle, and where a theorem says `PlainHosts`
no host starts with a NUL.

## Model

| member | source | states |
|---|---|---|
| Series.RollKeepsCumAt | internal/insight/history/store.go:584-595 | Rolling up by B reads, at x, what the original column reads at the end of x's bucket |
| Series.RollNested | internal/insight/history/store.go:78-82 | Rolling up by B1 and then by B2 is rolling up by B2 at once, whenever B1 divides B2 |
| Series.RollCompose | internal/insight/history/store.go:78-82 | The same with divisibility written as a remainder of zero |
| Series.FloorIsQuotient | internal/insight/history/store.go:591 | The bucket start is the integer quotient times the bucket size |
| Series.CutKeepsCumAt | internal/insight/history/store.go:602-604 | Pruning by age keeps every reading whose row survives |
| Series.CumAtWrite | internal/insight/history/store.go:361-374 | A row written no earlier than the others is what is read from its time on, and nothing before changes |
| Tiers.PassIsExact | internal/insight/history/store.go:597-604 | One pass leaves every tier the rollup of all rows ever written, cut to its retention, although the window is not bucket-aligned and raw is pruned at 900 s |
| Tiers.PassKeepsLevels | internal/insight/history/store.go:597-604 | Whichever statements of a pass fail, raw stays what was written and each coarser tier the rollup of what had been written when it was last rolled up, each cut where it was last pruned, while everything not yet rolled up is still in the 1800 s window |
| Tiers.PassIsExactIff | internal/insight/history/store.go:75-82 | For any number of rows written since everything was last rolled up, whatever was pruned since, the next pass leaves the tiers exact if and only if at each level every row it no longer sees that is the last of a retained bucket has the value of that bucket's last row it does see |
| Tiers.PassKeepsGiven | internal/insight/history/store.go:597-604 | At any time and whichever statements fail, after a pass each coarser tier is the rollup of what it had been given before and of what its window still reaches of the level below |
| Tiers.LevelIff | internal/insight/history/store.go:584-595 | Rolling up only the found rows gives the same tier if and only if every lost row that is the last of a retained bucket is made up for |
| Tiers.RowFoundIff | internal/insight/history/store.go:75-82 | Of a series with one row not rolled up, the newest and with a value that moved, the next pass leaves the tiers exact if and only if the row is still in the window and not pruned, or no tier would still retain it |
| Tiers.RowSurvivesIff | internal/insight/history/store.go:75-82 | For any series in which one row, with a value that moved, is all that was written since the last pass, the next one leaves the tiers exact if and only if it comes within 1800 s of that row or no tier would still retain it |
| Tiers.FailedRollupIff | internal/insight/history/store.go:598-604 | With a pass in between that rolls nothing up and prunes raw, it does so if and only if that pass came within 900 s of the row as well |
| Tiers.OneRowSurvivesIff | internal/insight/history/store.go:75-82 | The same for a series of that one row |
| Tiers.LatePassSkips | internal/insight/history/store.go:78-82 | A pass more than 1800 s after every raw row of a series leaves the tiers as if those rows had never been there |
| Tiers.LatePassLosesRow | internal/insight/history/store.go:75-82 | Of a series of one row a later pass leaves nothing in any tier |
| Gauges.GaugePassIsExact | internal/insight/history/store.go:605-623 | One pass at most 600 s after the last leaves each coarser tier, cut to its retention, the integer averages of the complete source rows of every bucket, with n rows of sum S and a row r: n * r <= S < n * r + n, mirrored below zero |
| Gauges.RollupStores | internal/insight/history/store.go:612-619 | One rollup statement stores, for every bucket start with rows in its window, that average of those rows, and leaves every other row |
| Gauges.AverageIsBetween | internal/insight/history/store.go:605-616 | The average lies between the least and the greatest of its rows, and is v if all are v |
| Gauges.SumOfOneMore | internal/insight/history/store.go:616 | One more row adds its value to the bucket's sum and leaves the other buckets' |
| Gauges.CountIsSize | internal/insight/history/store.go:616 | The number divided by is the number of rows in the bucket |
| Gauges.PassKeepsAverages | internal/insight/history/store.go:605-623 | Whichever statements fail, each tier stays the averages of what had been sampled when it was last rolled up |
| HistoryStore.Store.Sample | internal/insight/history/store.go:330-432 | One poll, with its loops, throttle, failing rows and failing commit, changes the tables and the caches exactly as the sample step does |
| HistoryStore.TotalIs | internal/insight/history/store.go:376-392 | The running total is, in integers, the sum of the downs and the sum of the ups |
| HistoryStore.Store.Write | internal/insight/history/store.go:367-374 | A counter that did not move is skipped; any other is inserted and left pending until the commit |
| HistoryStore.Store.RefreshSeen | internal/insight/history/store.go:412-430 | A refresh round updates every listed row whose update succeeds, and counts as complete only if every one did |
| HistoryStore.Store.SampleGauges | internal/insight/history/store.go:542-569 | A gauge sample writes all its raw rows or none, and an empty one changes nothing |
| HistoryStore.Store.Maintain | internal/insight/history/store.go:597-669 | One pass rolls up, prunes and purges exactly as the maintenance step does, going on after any statement that fails |
| HistoryStore.Store.PurgeStale | internal/insight/history/store.go:632-668 | Purging removes exactly the stale hashes, from each of rows, seen rows and dedup cache, but for what the failing statements leave |
| HistoryRuns.PendingRows | internal/insight/history/store.go:361-393 | What one poll adds to a series is exactly its pending row |
| HistoryRuns.GlobalRowIsSum | internal/insight/history/store.go:376-392 | A committed poll writes as the global row the sums of its torrents' counters in either direction, unless they are the last ones written or the row is refused |
| HistoryRuns.TiersAreExact | internal/insight/history/store.go:597-604 | In every run whose passes are in time, after each pass with no failing statement the 1m, 1h and 1d tiers of every hash are the last-value rollup of all its raw rows since it was last purged, whatever failed before |
| HistoryRuns.FrequentIsScheduled | internal/insight/history/store.go:571-604 | Passes are in time if each comes at most 900 s after the last one that rolled everything up, or 1800 s where none fails; for the gauges, 600 s |
| HistoryRuns.TiersAreExactIff | internal/insight/history/store.go:75-82 | In every run in nondecreasing time, with passes at any distance, any number of rows pending and any statements failing before, after a pass without failures the tiers of a hash are exact if and only if at each level every row of the level below that the tier was never given, and that is the last of a retained bucket, has the value of that bucket's last given row |
| GaugeRuns.AveragesAreExact | internal/insight/history/store.go:612-623 | In every run whose passes come at most 600 s after the last full one, after each pass with no failing statement each coarser tier holds the average, in those terms, of the complete set of source rows per bucket |
| GaugeRuns.AveragesFreeze | internal/insight/history/store.go:84-94 | The average of a bucket that was closed at a full pass never changes again while it is retained, through any later run, its failures and the pruning of its rows |
| HistoryDedup.DedupIsInvisibleIff | internal/insight/history/store.go:335-374 | Skipping unchanged counters, with failed rows, failed commits, failed purges and restarts, changes no reading at any time if and only if no poll was skipped against a dedup entry that had outlived its rows |
| HistoryDedup.DedupIsInvisible | internal/insight/history/store.go:335-374 | It changes none while every pass lists the hashes whose rows it deletes |
| HistoryDedup.UnlistedPurgeMasks | internal/insight/history/store.go:647-667 | A pass that deletes a hash's rows without listing it, and a poll with the old counter, is such a case |
| HistoryGc.PurgeNeedsEvidence | internal/insight/history/store.go:624-647 | A pass takes rows, seen row or dedup entry of a hash only if every refresh round completed in the 300 s up to the anchor, the last one included, left it out, and it was first seen before that, whatever fails |
| HistoryGc.OthersStay | internal/insight/history/store.go:657-668 | A hash that is not stale keeps its seen row, its dedup entry and whatever its tiers retain |
| HistoryGc.DoomedIff | internal/insight/history/store.go:632-647 | A hash is purged if and only if there was a round, the anchor is read, and its last refresh lies over 300 s before both the last round and the clock, even after the clock was set back |
| HistoryGc.GlobalStays | internal/insight/history/store.go:657 | No pass takes a row of the global series but by age |
| HistoryGc.SightedIsSeen | internal/insight/history/store.go:395-405 | A hash has a seen row exactly if some committed poll since it last lost it listed the hash and recorded its first sighting |
| HistoryGc.FirstSeenIs | internal/insight/history/store.go:395-421 | The row keeps the time of that first sighting through every refresh |
| HistoryGc.RoundsAreDue | internal/insight/history/store.go:406-430 | A poll completes a round if and only if it comes at least 60 s after the last one since the restart, commits, and none of the round's writes fails |
| HistoryGc.LastSeenIs | internal/insight/history/store.go:398-421 | The refresh time of a seen row is that of its first sighting or of the last poll that listed it, was due and did not fail to refresh it |
| HistoryGc.KnownIsSighted | internal/insight/history/store.go:395-405 | While no first sighting of a hash is refused and no purge of it is cut short, whatever has rows or a dedup entry was sighted |
| HistoryGc.AbsentIsPurgedIff | internal/insight/history/store.go:641-668 | After any run, a hash listed by no poll for longer than the grace before the last completed round loses its rows in every tier, its seen row and its dedup entry in one pass without failures if and only if it was sighted, and keeps its dedup entry and what its tiers retain otherwise |
| HistoryGc.AbsentIsPurged | internal/insight/history/store.go:641-668 | In particular every such hash is collected when the database never refused a first sighting of it nor cut a purge of it short |
| HistoryGc.RefusedSeedIsNeverPurged | internal/insight/history/store.go:650-653 | One poll whose first sighting is refused leaves a torrent with a row and a dedup entry that no pass collects |
| HistoryGc.FailedDeleteOrphans | internal/insight/history/store.go:657-658 | A pass whose row delete fails while its seen delete succeeds leaves rows that the next pass only lets age |
| HistoryGc.UnsightedStays | internal/insight/history/store.go:655-667 | Without a sighting the dedup entry outlives every pass until a restart or a poll that lists the hash |
| HistoryGc.StaysForgotten | internal/insight/history/store.go:659-667 | A purged hash stays out of the dedup cache until a poll lists it |
| HistoryGc.ReaddedGetsBaseline | internal/insight/history/store.go:659-667 | The first poll that lists a sighted, collected hash again and commits writes a baseline row, even with an unchanged counter |
| HistoryGc.ReaddedGetsBaselineIff | internal/insight/history/store.go:659-667 | With an unchanged counter and no restart in between it does so if and only if the hash had been sighted; else its tiers stay as they are |
| RateGrid.Advance | internal/insight/history/store.go:782-794 | The moving cursor reads the last row at or before x, the first row before that, and zero of nothing |
| RateGrid.ResampleGrid | internal/insight/history/store.go:773-813 | The loop yields (end - start) / step + 1 points, point k at start + k * step, whose rates times the step miss the change of the reading over that step by less than a step, and are 0 where it fell or rose by more than 16 GiB a second |
| RateGrid.GridAt | internal/insight/history/store.go:795-811 | Slot k of the grid is the slot computed directly at start + k * step |
| RateGrid.GridIs | internal/insight/history/store.go:795-811 | The grid has a point every step from start to end with those rates |
| RateGrid.ReadAtMeans | internal/insight/history/store.go:777-794 | A reading is the last row at or before x, the first row when all are later, and zero of nothing |
| RateGrid.FetchSamples | internal/insight/history/store.go:738-756 | The fetch is every row from the last one at or before start - step on |
| RateGrid.FetchKeepsGrid | internal/insight/history/store.go:735-756 | Fetching only from that row gives the grid of the whole tier |
| RateGrid.GridConserves | internal/insight/history/store.go:795-811 | For a nondecreasing counter with no clamped slot, the grid's bytes miss the counter's growth by less than one step per slot and never exceed it |
| RateGrid.Query | internal/insight/history/store.go:695-733 | The window follows from range and first sighting, its step (1, 60, 3600 or 86400 s) from the range alone, and its points are such a grid of one whole tier, stamped from start to end, the coarsest one suited that holds two rows or raw |
| RateGrid.QueryTiers | internal/insight/history/store.go:716-731 | The coarse-to-fine fallback answers from the coarsest tier with several rows and one later than start - step, or from raw |
| RateGrid.PickTierIs | internal/insight/history/store.go:676-687 | It starts from the finest tier that retains the whole range |
| RateGrid.WindowIsBounded | internal/insight/history/store.go:676-704 | The grid has at most 1441 slots up to seven days and one per day beyond, whatever tier is read |
| RateGrid.ReadAtIsCumAt | internal/insight/history/store.go:777-794 | The cursor's reading of a tier is the last cumulative value wherever there is one |
| RateGrid.TierReadsHistory | internal/insight/history/store.go:735-813 | A query that reads the 1m, 1h or 1d tier after an exact pass reads the raw history as of the end of each slot's bucket |
| RateGrid.MinuteTierReadsHistory | internal/insight/history/store.go:735-813 | In particular for the 1m tier, to the end of the slot's minute |
| Rebuild.RebuildTier | internal/insight/history/store.go:492-519 | The streaming pass emits exactly one row per distinct timestamp, ascending, whose down and up are the sums over torrents, in any order, of each one's last value at or before it |
| Rebuild.SumMoves | internal/insight/history/store.go:497-512 | Putting a value at a hash moves each sum by the difference to what was there |
| Rebuild.SumOfListed | internal/insight/history/store.go:497-512 | Listed in any order, the readings sum to the total in either direction |
| RebuildStore.RebuildGlobal | internal/insight/history/store.go:446-536 | The rebuild catches the tiers up, replaces every global tier by that sum, counts the rows it wrote, and changes nothing when it fails |
| RebuildStore.RebuiltRowsAreSums | internal/insight/history/store.go:484-519 | Each row of each rebuilt tier is, in either direction, the sum of what the torrents' rows of that tier read at its time |
| RebuildStore.RebuildIsIdempotent | internal/insight/history/store.go:434-439 | Rebuilding again, then or later, changes nothing |
| RebuildStore.RebuiltIsCaughtUp | internal/insight/history/store.go:464-482 | It leaves the torrents' tiers so that no further rollup adds to them |
| RebuildStore.RebuiltReads | internal/insight/history/store.go:484-487 | The rebuilt series reads, at every x from its first row on, the sums over the torrents of what they read at x |
| RebuildStore.RebuildMatchesLive | internal/insight/history/store.go:376-392 | With no removal and no pass that prunes anything, the rebuilt raw series reads like the one the polls wrote |
| Wire.DiffFrom | internal/model/torrent.go:54-121 | The diff holds a field exactly if it changed, with its new value, and is empty exactly if no wire field changed |
| Wire.PatchedField | web/src/lib/stores/torrents.svelte.ts:53-77 | A patch sets each field it holds and keeps each other one |
| Wire.TorrentRow.Apply | web/src/lib/stores/torrents.svelte.ts:53-83 | Assigning field by field is applying the patch |
| Delta.ComputeDelta | internal/poll/poller.go:172-190 | The tick's loops build the next table, the upserts of new and changed torrents in list order, and the removals |
| Delta.DiffReplays | internal/model/torrent.go:54-121 | A diff takes the previous row to the next, and leaves the next as it is |
| Delta.SnapshotErasesPast | web/src/lib/stores/torrents.svelte.ts:90-107 | Applying a snapshot leaves exactly its rows, whatever was there |
| Delta.UpsertsLand | internal/poll/poller.go:174-183 | Upserts bring every listed row up to date from any state that is behind and touch no other |
| Delta.DeltaLaw | internal/poll/poller.go:172-190 | The tick's delta takes the previous rows to the next on all wire fields, and applied once more changes nothing |
| TorrentStores.TorrentStore.ApplySnapshot | web/src/lib/stores/torrents.svelte.ts:90-107 | Reconciling in place has the snapshot's effect, and rows that stay keep their identity |
| TorrentStores.TorrentStore.ApplyUpserts | web/src/lib/stores/torrents.svelte.ts:109-119 | Upserting in place has the upserts' effect and replaces no row object |
| TorrentStores.TorrentStore.Remove | web/src/lib/stores/torrents.svelte.ts:121-123 | Exactly the named rows go |
| Hubs.Hub.Subscribe | internal/sse/hub.go:73-97 | A joiner starts with the cached snapshot and status, and the first one activates the poller |
| Hubs.Hub.Unsubscribe | internal/sse/hub.go:100-112 | Exactly the subscriber goes, once, and the last one parks the poller |
| Hubs.Hub.Broadcast | internal/sse/hub.go:117-127 | Every subscriber is sent the message, and one whose channel is full is given up |
| Hubs.EveryHubRunIsOk | internal/sse/hub.go:73-127 | In every run an unkilled subscriber's taken and buffered messages are the cache at its join and every broadcast since, in order; a killed one is short, but what was sent to it before the kill is still a prefix of what it was owed; no channel exceeds 16; the poller is active exactly while someone is subscribed |
| Hubs.RegisteredIs | internal/sse/hub.go:73-112 | Registered are exactly those who joined and have not left, and the poller is active exactly while there are any |
| Hubs.KilledStreamSkips | internal/sse/hub.go:117-127 | A subscriber killed over one message and drained by one is sent the next broadcast, with the lost one missing from its stream for good |
| Hubs.KilledRunSkips | internal/sse/hub.go:117-127 | A run of the hub that does this: sixteen broadcasts, one lost, one taken, one more |
| ReplicationGap.GapCanBeSeen | internal/api/server.go:268-282 | There is a run of the whole system in which the browser warns of a sequence gap |
| Pollers.Poller.Tick | internal/poll/poller.go:144-202 | A tick updates health, sequence and table and hands the hub the status, snapshot and delta operations in the order cache first, broadcast next |
| Pollers.PublishedIs | internal/poll/poller.go:192-201 | All a successful poll publishes of its data carries its own time and the next sequence number: its snapshot for the cache, then its delta, or the same snapshot when it is the first |
| Pollers.Poller.SetHealth | internal/poll/poller.go:206-216 | A health change is cached before it is broadcast |
| Pollers.HealthIs | internal/poll/poller.go:144-162 | Health is unreachable exactly when three or more failures trail, else up if any poll ever succeeded, else unknown |
| Pollers.StatusesAlternate | internal/poll/poller.go:150-162 | Broadcast health values strictly alternate and the last one is the current health |
| Staleness.SkewIsLeastLag | web/src/lib/stale.ts:21-31 | The gauge's running minimum is the least lag of the connection |
| Staleness.StaleMeans | web/src/lib/sse-driver.ts:153-161 | A message is stale exactly when it is a first one over 30 s after the connect, or lags over 15 s more than some earlier message of the connection |
| Staleness.ClockOffsetsCancel | web/src/lib/stale.ts:3-20 | No verdict depends on how far apart client and server clocks are |
| SseDrivers.SseDriver.OpenConnection | web/src/lib/sse-driver.ts:163-175 | Opening closes first and starts a connection of which nothing has been heard |
| SseDrivers.SseDriver.CloseConnection | web/src/lib/sse-driver.ts:138-144 | Closing moves the generation on, cancels retry and watchdog, and closes the held source |
| SseDrivers.SseDriver.GoIdleNow | web/src/lib/sse-driver.ts:145-149 | Going idle cancels every timer and closes |
| SseDrivers.SseDriver.Observe | web/src/lib/stale.ts:21-31 | The verdict on one message and the gauge after it |
| SseDrivers.SseDriver.StaleAndRecycled | web/src/lib/sse-driver.ts:153-161 | A stale message closes first, then reopens if visible or goes idle |
| SseDrivers.SseDriver.DataListener | web/src/lib/sse-driver.ts:184-209 | A late listener does nothing; a stale message is dropped with its connection; any other is applied, checked for a gap if a delta, and re-arms the watchdog |
| SseDrivers.SseDriver.OpenListener | web/src/lib/sse-driver.ts:177-182 | Only an open connection resets the backoff |
| SseDrivers.SseDriver.StatusListener | web/src/lib/sse-driver.ts:211-218 | A status changes the health axis and nothing else |
| SseDrivers.SseDriver.ErrorListener | web/src/lib/sse-driver.ts:220-239 | An error closes, then goes idle if hidden, else schedules a retry under the new generation and doubles the backoff up to its cap |
| SseDrivers.SseDriver.TimerFired | web/src/lib/sse-driver.ts:229-237 | Each callback clears its variable first and does what its timer is for |
| SseDrivers.SseDriver.Hidden | web/src/lib/sse-driver.ts:248-260 | Hiding drops a pending retry, stops the watchdog and starts the grace period of a held source |
| SseDrivers.SseDriver.Revealed | web/src/lib/sse-driver.ts:261-275 | Showing keeps a source that is alive and was heard within 15 s, else reconnects |
| SseDrivers.SseDriver.OnSignal | web/src/lib/sse-driver.ts:242-276 | A stopped driver ignores every signal |
| SseDrivers.SseDriver.End | web/src/lib/sse-driver.ts:284-289 | Stopping cancels everything and reports offline |
| SseDrivers.Lifecycle.VisibilityChange | web/src/lib/stores/lifecycle.svelte.ts:33-36 | The flag is written before the signal |
| SseDrivers.Lifecycle.Suspend | web/src/lib/stores/lifecycle.svelte.ts:38-51 | Freeze and pagehide hide the page and close the stream before they return |
| SseDrivers.Lifecycle.Wake | web/src/lib/stores/lifecycle.svelte.ts:42-56 | Resume and persisted pageshow restore the flag and signal only if visible |
| Tabs.Tab.Handle | web/src/lib/sse-driver.ts:88-276 | Handling any event, the driver object takes exactly the state machine's step and keeps its invariants |
| DriverInvariants.StepIsOk | web/src/lib/sse-driver.ts:49-67 | Every browser event keeps the driver's invariants |
| DriverInvariants.EveryRunIsOk | web/src/lib/sse-driver.ts:49-67 | In every run: at most one source not closed, and it is the held one; no stray timer; retry only when visible with no source; grace exactly when hidden with one; watchdog only with one; idle or offline holds nothing; a visible driver has a source or a retry, never both or neither; live implies a source; the k-th retry waits min(1000 * 2^k, 30000) |
| DriverInvariants.NothingIsSkipped | web/src/lib/sse-driver.ts:153-209 | On every connection the applied data messages are the dispatched ones, in order, up to at most one last message after which it is closed; the per-connection variables speak of the held source only |
| DriverInvariants.AppliedOrRecycled | web/src/lib/sse-driver.ts:153-221 | A data message on the held source is applied, or stale, dropped and its source closed, with a new one exactly if visible; a status moves the health axis alone; any message on another source changes nothing |
| DriverInvariants.OtherSourcesAreInert | web/src/lib/sse-driver.ts:174-221 | Any event of a source other than the held one changes no state, and neither does its listener if it ran |
| DriverSigns.HealthIsShown | web/src/lib/sse-driver.ts:98-131 | In every run, while a source is held, down is shown if and only if the last status heard on it said unreachable, whatever data came; else stale if and only if the watchdog fired since the last data; else up if and only if some came; else unknown |
| DriverSigns.ConnIsShown | web/src/lib/sse-driver.ts:177-276 | In every run the connection is called live from the moment the held source opens or delivers until an error, idling or a source found dead on show; and the watchdog runs if and only if it opened, delivered or was kept on show and since then neither fired nor was the page hidden |
| DriverSigns.StaleIsTold | web/src/lib/sse-driver.ts:153-161 | In every run a data message on the held source is judged stale if and only if it is its first and comes over 30 s after the source was opened, or lags over 15 s more than some earlier one |
| DriverSigns.ShowKeepsIff | web/src/lib/sse-driver.ts:261-275 | In every run a page shown again keeps its source if and only if it holds one that was heard, or else opened, less than 15 s ago, and opens a new one otherwise |
| ReplicationServer.PublishIsOk | internal/poll/poller.go:192-201 | Each of a tick's hub operations keeps every unkilled stream a path to the last tick cached or broadcast |
| ReplicationServer.JoinIsOk | internal/sse/hub.go:73-97 | A subscription starts such a path wherever the tick's publishing has got to |
| ReplicationServer.SuccessIsOk | internal/poll/poller.go:157-201 | What a successful tick is about to publish brings cache and broadcasts to that tick |
| Replication.ClientFollows | web/src/lib/stores/torrents.svelte.ts:90-123 | One message of a path takes the rows of its predecessor's tick to those of its own |
| Replication.TrailIffPath | internal/sse/hub.go:117-127 | A stream with losses carries consecutive ticks if and only if no tick in it came after a loss |
| ReplicationRuns.StepKeeps | internal/poll/poller.go:164-201 | Every step of the system keeps the replication invariant |
| ReplicationRuns.ClientMirrorsOneTick | internal/poll/poller.go:164-201 | In every interleaving, as long as no sequence gap was warned of, the client's rows are those of exactly one successful tick from its first snapshot on; and whatever happened before, they are those of the tick last applied on the held connection while no tick after a lost one was dispatched on it |
| ReplicationRuns.StreamIsPathIff | internal/sse/hub.go:117-127 | In every run the ticks of a stream, and those carried on its link, follow each other if and only if none found room after a newer one was lost; an unkilled subscriber has lost none |
| ReplicationRuns.StepWarnsIff | web/src/lib/sse-driver.ts:195-209 | One step warns of a gap exactly if it hands over, fresh, a tick that follows a lost one |
| ReplicationRuns.WarnsIffLost | web/src/lib/sse-driver.ts:195-209 | In every run the browser has warned exactly as often as it was handed such a tick |
| ReplicationRuns.HealthAlternates | internal/poll/poller.go:206-216 | In every run two health values broadcast in a row differ |
| ReplicationRuns.DrainedClientIsCurrent | internal/poll/poller.go:144-162 | An unkilled client that has drained its stream while nothing is being published shows the latest tick's rows, and shows the daemon as down exactly when the poller has it as unreachable |
| Decimal.ValueOfDigits | internal/scgi/frame.go:20 | Decimal notation denotes the number it was made from |
| Decimal.DigitsEnd | internal/scgi/frame.go:20 | The last digit is that of the remainder by ten, and the others write the quotient |
| TrackerCaches.PrimaryTrackerHost | internal/rpc/torrents.go:188-213 | The loop returns the first enabled tracker's host, else the first tracker's, else blank |
| TrackerCaches.PrimaryIs | internal/rpc/torrents.go:184-187 | An enabled tracker wins over every disabled one and an earlier one over a later one |
| TrackerCaches.MarksDiffer | internal/rpc/torrents.go:103-127 | Two flights never park the same marker |
| TrackerCaches.TrackerCache.Park | internal/rpc/torrents.go:129-154 | The first locked section prunes what is not listed, fills in what is cached, marks what is not and collects each such hash once |
| TrackerCaches.TrackerCache.Commit | internal/rpc/torrents.go:162-181 | The second locked section writes or clears exactly the entries that still hold the flight's own marker, and fills in a tracker exactly where it wrote one |
| TrackerCaches.TrackerCache.Invalidate | internal/rpc/detail.go:211-216 | A toggle deletes exactly its torrent's entry |
| TrackerCaches.ToggleTakesEffect | internal/rpc/detail.go:200-216 | A toggle that takes effect sets the one tracker and nothing else of the daemon |
| TrackerCaches.CacheIsCurrent | internal/rpc/torrents.go:109-181 | With any number of concurrent flights, prunes and toggles: every marker belongs to a running flight; every cached host of a torrent with no toggle in between, and none that took effect while its call failed since it was cached, and every tracker filled in, is the primary host of the daemon's trackers now; no marker reaches a torrent |
| TrackerCaches.ShownIffPlain | internal/rpc/torrents.go:122-182 | For every daemon, one undisturbed poll caches a torrent's primary host, and the next poll shows it if and only if it does not start with a NUL |
| TrackerCaches.MarkersAreFlightsIff | internal/rpc/torrents.go:119-124 | Whatever reads as a marker is one of a running flight, in every run of a daemon, if and only if none of its usable hosts starts with a NUL |
| TrackerCaches.NulHostReadsAsMarker | internal/rpc/torrents.go:215-224 | A witness: an announce URL that is a NUL byte is cached as a host that later polls take for a marker |
| Charts.MonotonePath | web/src/lib/charts.ts:76-90 | The loops emit, for each pair of neighbours, the cubic with the limited tangents of both |
| Charts.InteriorTangent | web/src/lib/charts.ts:15-24 | The interior tangent has the sign of both secants and at most twice either's size, and is flat at an extremum |
| Charts.TangentIs | web/src/lib/charts.ts:15-24 | Between rising chords the interior tangent is the slope of the parabola through the three points, limited to twice either chord's; likewise between falling ones; else flat |
| Charts.ParabolaSlope | web/src/lib/charts.ts:15-24 | That slope is the one at the middle of a parabola through all three points |
| Charts.EndIsLimited | web/src/lib/charts.ts:26-31 | The end tangent stays in the monotone region of its segment |
| Charts.PathNeverOvershoots | web/src/lib/charts.ts:1-10 | Every segment through three or more points moves from one data point's value to the other's and never past it, evenly in x, end segments and repeated abscissas included |
| Charts.JoinsAreSmooth | web/src/lib/charts.ts:76-90 | Two pieces meet with one slope, at every interior point the limited tangent |
| Charts.EndsAreStraight | web/src/lib/charts.ts:26-31 | The curve does not bend at its two ends |
| Charts.TimeSeriesPath | web/src/lib/charts.ts:55-73 | The path is empty exactly for fewer than two points, an empty window or no scale; else it goes through one point a sample: no value on the axis, the scale and beyond at the top, the window's ends at the box's sides, larger values never lower, and equal steps of time, and of values within the scale, equal on the screen |
| Charts.PieceEnds | web/src/lib/charts.ts:76-90 | Every piece of a path runs from its data point to the next |
| Charts.SeriesStaysInside | web/src/lib/charts.ts:46-80 | The whole path of a nonnegative series, curve or two-point line, stays inside the plot box |
| Scgi.EncodeRequest | internal/scgi/frame.go:16-35 | The buffers hold the netstring of the three headers and the body |
| Scgi.RoundTrip | internal/scgi/frame.go:13-35 | A receiver by section 3 of the SCGI specification decodes exactly the headers and the body, whatever the body holds, if and only if the content type has no NUL |
| Scgi.ContentLength | internal/scgi/frame.go:62-75 | The first Content-Length line decides, in any case of the name; a malformed one counts as none |
| Scgi.ParseResponse | internal/scgi/frame.go:41-58 | The response is split at the first separator of either kind, and a body shorter than declared is an error |
| Scgi.SeparatorAt | internal/scgi/frame.go:42-48 | Between header lines and any tail the separator found is the response's own |
| Scgi.NoHeaders | internal/scgi/frame.go:42-53 | Without header lines the response is what follows the separator at the front |
| Scgi.DeclaredLength | internal/scgi/frame.go:60-75 | A Content-Length line, in any case of the name and with any Unicode white space around the number, denotes its number if that is not negative and in the range of a 64-bit int, and is malformed otherwise |
| Scgi.WholeOrError | internal/scgi/frame.go:36-58 | A response with a Content-Length equal to its body parses to the whole body, and each of its proper prefixes to an error |
| Pieces.BitsToHex | internal/poll/mockdetail.go:61-69 | The loop packs the bits most significant first and writes two hex digits a byte |
| Pieces.DecodeHex | web/src/lib/pieces.ts:48-58 | A trimmed, even, long enough hex string gives the bit of every chunk, anything else nothing |
| Pieces.HexRoundTrip | web/src/lib/pieces.ts:47-58 | Every nonempty bit list decodes from its own packing |
| Pieces.HexIs | internal/poll/mockdetail.go:61-69 | Hex digit j is that of the four bits from 4j on, the first one highest, with zeros past the end |
| Pieces.AnyCaseRoundTrip | web/src/lib/pieces.ts:47-58 | The packing decodes in any letter case and with white space around it |
| Pieces.MalformedIff | web/src/lib/pieces.ts:48-51 | A bitfield is malformed if and only if it is empty, has an odd number of digits, another character or too few digits for the torrent |
| Pieces.DecodePieces | web/src/lib/pieces.ts:13-45 | The cells of the chunk states, taken from the most reliable signal, or the bar when there is no usable layout |
| Pieces.EdgeStep | web/src/lib/pieces.ts:36-38 | Every cell covers at least one chunk, and the last one ends at the last chunk |
| Pieces.EdgesAreEven | web/src/lib/pieces.ts:36-38 | No two cells differ by more than one chunk in size |
| Pieces.CellCountIs | web/src/lib/pieces.ts:31-32 | There is one cell a chunk where the budget allows it, else as many as the budget rounded down |
| Pieces.CountDecides | web/src/lib/pieces.ts:19-30 | A full or an empty count is drawn so whatever the bitfield; any other count needs a well-formed one |
| Pieces.MapIsFaithful | web/src/lib/pieces.ts:1-8 | With the true popcount, completed equals it, the cells cover consecutive nonempty ranges from the first chunk to the last with fractions in [0, 1], and with budget for every chunk each cell is its bit |

## Left out

- SQL text, the SQLite driver, PRAGMAs, transactions beyond whether they commit, and schema
  migrations: the tables are maps and each operation is atomic.
- The v2 backfill that leaves a first sighting at 0 arises only in migrated databases; the refresh
  heals it in the model as in the code.
- `decimateGauge`, `QueryGauges` and `FirstTS`: simple reads, and the first's bucket edges depend on
  floating-point rounding.
- 64-bit overflow of counters and timestamps, which are unbounded integers here.
- GaugeRuns.AveragesAreExact: gauge values of either sign are averaged exactly and truncated, while
  SQLite averages in floating point.
- The globals message, the sink that feeds the history store, JSON, HTTP handlers, heartbeats and
  the network; a connection is a queue whose messages arrive in order or not at all.
- A restart of the server, after which sequence numbers begin again: every open stream ends with it.
- ReplicationRuns.ClientMirrorsOneTick: once a gap has been warned of nothing is claimed of the rows
  until the next connection's snapshot.
- The retry jitter: the model keeps the base delay, and a pending timer may fire at any moment.
- A driver without health reporting, which is the same machine with the watchdog and the status
  listener removed.
- The client-only row fields for the completion sweep, the smoothed rate and the time estimate.
- `deriveStatus`, `trackerFailing` and the other decoders of the daemon's rows; `url.Parse`, so a
  tracker row carries the host already extracted.
- TrackerCaches.CacheIsCurrent: a toggle that takes effect although its call reports an error
  deletes nothing from the cache, so nothing is claimed of that entry until it leaves the cache.
- Floating-point rounding, infinities and not-a-number inputs of the chart path; `niceMax`, which
  rests on logarithms; the text form of the path.
- Pieces.DecodePieces: chunk counts with a fraction, which the server cannot send, and a budget that
  is not finite.
