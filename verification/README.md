# Verification of rustern-core

A Dafny model of the runtime of `rustern-core`: the part that keeps a set of container log streams in step with a
Kubernetes watch, merges them through bounded channels, reconnects them without gaps, and turns them into the lines that
are shown. `dafny verify dfyconfig.toml` checks all of it.

What the source changes in place is a class here (registry, lifecycle, sharded caches, tracked stream, resolver, limiter,
counters), its loops are loops, and its concurrency is a step system: a state, the steps each task can take, and theorems
about every run, that is about every interleaving. A class method is proved against a function on values, and the
theorems are about these functions and steps. What such a function computes is stated apart from its body as well, over
the fields and constructors it reads: `Discovery.StreamIs`, `MuxForward.KeysAre`, `LogLines.EntriesComeOut`, and all of
`ShownLines` are such lemmas.

| Part | Modules |
|---|---|
| Reconnecting a stream | `CursorRequest`, `CursorService`, `Seam`, `SeamLimits`, `AttachLoop`, `AttachPool`, `LogLines` |
| Watch, registry, metadata cache | `ShardedMap`, `Discovery`, `Registry`, `Lifecycle`, `WatchTrace`, `LiveStreams` |
| Mux, pipeline, forwarding | `Dataflow`, `MuxForward`, `WarnLimiter`, `Pipeline`, `ShownLines`, `Levels` |
| Translations | `DotPath`, `Selector` |
| Shared | `Wrappers`, `Source`, `Text` |

How things are represented: instants are integer nanoseconds since the epoch and their RFC 3339 text (section 5.6) is a
print/parse pair of which only "parse after print" is assumed, within the range the date type holds; regular expressions,
queries, JSON parsers and hash functions are arbitrary functions; the API server is an arbitrary source of watch events
and log lines. Of a log it is assumed that its dated lines are in time order and that a request is answered with all dated
lines from its start on: a tail starts that many lines before the end, a window that long before the server's clock.
A timeout, a random draw or a server's answer is a parameter, so a theorem holds for all of them.

Where the code does not do what its documentation says, or only under a condition, the code is modelled and the condition
is stated as an "if and only if"; the lemmas named second give a run or an input for which it fails:

- A reopen before any cursor was applied repeats the first request, with its tail or window: lines can be lost
  (`SeamLimits.ReopenIsSafeUnlessBlind`, `BlindReopenHappens`).
- A cursor left by an earlier registration of the same key can make a reopen start too late, because the queued update
  can land after `forget` (`SeamLimits.GapFreeUnlessStale`, `StaleCursorHappens`).
- So can a cursor that a cancelled stream of an earlier registration reports while the new one is at work
  (`SeamLimits.LateCursorIsSafeUnlessItOutruns`, `LateCursorHappens`).
- More than a million undated lines in a row outrun the overlap (`SeamLimits.LineIsSafeUnlessItDrifts`, `DriftHappens`).
- The request is built from a second read of the cursor, which may step back behind the one that was confirmed
  (`CursorService.SecondReadKeepsTarget` and `SeamLimits.ReplayIsBounded`, `ConfirmedCursorStepsBack`).
- The overlap can replay lines from before the first one shown, and stop halfway (`SeamLimits.ContiguousUnlessPartial`,
  whose failing half gives the run).
- Reaching the stream limit can end a run without the limit being reported (`AttachPool.LimitReportedUnlessRaced`,
  `LimitCanGoUnreported`). The condition is about the schedule of that run, so no caller can test it beforehand.
- A rejected apply that brings a new uid leaves the old uid's streams (`WatchTrace.RejectedApplyRefines`,
  `RejectedApplyHappens`).
- A cancelled task's late add replaces the live stream of the same key (`LiveStreams.LiveStreamStays`,
  `LateAddReplacesLiveStream`).
- `~` is not escaped in a JSON Pointer (`DotPath.UnescapeEscape`, which fails for "~0" and "~1" and whatever holds them).
- A list of values that is just the empty string prints as `in ()`, which cannot be read
  (`Selector.TextMeansPrinted`, `EmptyValueCannotBeRead`).
- A selector of which nothing can be printed falls back to the name, which misses labels unless the selector holds of
  none (`Selector.FallbackWidens` and `FallbackWidensKnown`, `FallbackCanNarrow`).
- A message that ends with a carriage return loses it (`LogLines.ReadsBack`).

## Model

| member | source | states |
|---|---|---|
| `CursorRequest.CursorRequestResumesOneSecondBack` | crates/rustern-core/src/runtime/cursor_store.rs:147-191 | a reopen with a stored cursor asks for everything from exactly one second before it: tail and relative window are gone from what is sent, `follow` and `previous` stay |
| `CursorRequest.FirstRequestIsAsAsked` | crates/rustern-core/src/runtime/cursor_store.rs:147-191 | the first request, and a reopen without a cursor, send the tail, window and start that were asked for, the window only when there is no start |
| `CursorRequest.LogLineTimestampResolver.Resolve` | crates/rustern-core/src/source/pod_log.rs:198-215 | a dated line keeps its stamp, an undated one is a microsecond after the line before it, and the first is at the epoch; the new state is the stamp given |
| `CursorRequest.UndatedLinesDrift` | crates/rustern-core/src/source/pod_log.rs:198-215 | `n` undated lines after a dated one, whatever came before, end exactly `n` microseconds after it |
| `CursorRequest.OverlapCoversUndatedRun` | crates/rustern-core/src/runtime/cursor_store.rs:22-22 | the one second overlap resumes at or before the last dated line if and only if at most 1,000,000 undated lines followed it |
| `CursorService.TrackedStream.PollNext` | crates/rustern-core/src/runtime/cursor_service.rs:140-233 | one poll: not ready changes nothing; a line is handed on, remembered as last and reported to the processor; the end signals once, with the last stamp, or as cancelled |
| `CursorService.TrackedStream.Drop` | crates/rustern-core/src/runtime/cursor_service.rs:157-169 | dropping signals the end if it was not signalled before, and only then |
| `CursorService.TrackedStream.Finish` | crates/rustern-core/src/runtime/cursor_service.rs:130-135 | at most one end signal, the first one |
| `CursorService.PollThenDrop` | crates/rustern-core/src/runtime/cursor_service.rs:111-246 | under every schedule of polls followed by the drop, with the token cancelled at any moment, exactly one end is signalled: as cancelled if the token was when the end was noticed, else with the stamp of the line after which no other came, none if no line came or cursors are off; the lines given are a prefix of the stream, and one update was queued for each, in order |
| `CursorService.CancelledWhenNoticed` | crates/rustern-core/src/runtime/cursor_service.rs:157-233 | the end is noticed by the first poll that finds the stream ready after all its items, and by the drop when there is no such poll; that moment's token decides |
| `CursorService.WaitCursorFlushed` | crates/rustern-core/src/runtime/cursor_service.rs:248-268 | confirms with the first of at most 16 reads that reaches the target, gives up after exactly 16, reads nothing when there is no target |
| `CursorService.LastUpdateWins` | crates/rustern-core/src/runtime/cursor_store.rs:130-145 | after the processor has run, a key has the stamp of its last queued update, even if earlier ones were newer |
| `CursorService.SecondReadKeepsTarget` | crates/rustern-core/src/runtime/cursor_service.rs:92-104 | between the read that confirms and the read the request is built from, the cursor stays at or above the target in every schedule of the processor if and only if no queued update of the key is below it |
| `Seam.NoGapAtTheSeam` | crates/rustern-core/src/runtime/attach.rs:59-121 | in every interleaving of source lines, the server's clock, polls, processor steps, flush tries (16, confirmed or not), failing and succeeding reopens, over a log that may hold lines when the registration begins: no dated line between the first one handed over and any later one is missing, for runs without a blind reopen, a drifting stamp, or a stale or outrunning cursor; cursors of the same key that streams of earlier registrations report meanwhile are among the steps |
| `Seam.DriftTakesAMillion` | crates/rustern-core/src/source/pod_log.rs:198-215 | in every state that keeps the invariant of the runs the stamp of an undated line does not drift as long as at most a million undated lines follow each other |
| `SeamLimits.ReopenIsSafeUnlessBlind` | crates/rustern-core/src/runtime/attach.rs:59-71 | from every state that keeps the invariant of the runs, all continuations of a reopen are free of gaps if and only if the reopen is not blind: no cursor was applied though lines were handed over, and the first request, sent again, has a tail or a window that can move past a missing line |
| `SeamLimits.ReachedInv` | crates/rustern-core/src/runtime/attach.rs:59-121 | every state that a careful run reaches, from a start without a stale cursor, keeps that invariant |
| `SeamLimits.WaitsForLastLine` | crates/rustern-core/src/runtime/cursor_service.rs:92-104 | when a stream ends, the wait is for the stamp of its last line: it is over at the first look that finds it stored, or after sixteen looks that do not, and no request is built before |
| `SeamLimits.BlindReopenHappens` | crates/rustern-core/src/runtime/cursor_service.rs:248-268 | with any tail or window (and no absolute start), a run from an empty registration gives up the flush wait after sixteen tries, reopens blindly, and can lose a line |
| `SeamLimits.GapFreeUnlessStale` | crates/rustern-core/src/runtime/cursor_service.rs:106-108 | whatever the log holds when a registration begins, and whatever the first request asks for, all its runs, with any cursors that come late but do not outrun its lines, are free of gaps if and only if no cursor left over from an earlier registration is stale: none lies more than one second after the second dated line that the first request can bring, or that a reopen at an earlier one of them can bring (after the last stamp where there is no second line yet) |
| `SeamLimits.OneCursorLeftBehind` | crates/rustern-core/src/runtime/cursor_store.rs:147-191 | one left-over cursor, before a first request for the whole log, is stale if and only if it lies more than one second after the second dated line, or the last one where there are fewer |
| `SeamLimits.StaleCursorHappens` | crates/rustern-core/src/runtime/cursor_service.rs:106-108 | any log of three lines whose last is more than a second after the second makes the ordinary cursor left by an earlier registration stale, and a line can be lost |
| `SeamLimits.LateCursorIsSafeUnlessItOutruns` | crates/rustern-core/src/runtime/cursor_service.rs:205-233 | in every state that keeps the invariant of the runs, whatever the registration is doing and before as well as after its first line, all continuations of a cursor of the same key that a stream of an earlier registration reports are free of gaps if and only if that cursor does not outrun the lines handed over: the overlap leads back from it to a line up to which nothing is missing; before the first line, to the second line of every stream that can bring that one |
| `SeamLimits.LateCursorHappens` | crates/rustern-core/src/runtime/attach.rs:98-113 | for any three lines whose last is more than a second after the second, the last one's cursor from such a stream outruns an untouched registration, and one that has handed over a line, and a line can then be lost |
| `SeamLimits.LineIsSafeUnlessItDrifts` | crates/rustern-core/src/source/pod_log.rs:198-215 | in such a state, once a dated line was handed over, all continuations of handing over a further one are free of gaps if and only if its stamp does not drift, that is if the overlap leads back from it to a line up to which nothing is missing |
| `SeamLimits.DriftHappens` | crates/rustern-core/src/runtime/cursor_store.rs:22-22 | the line after a million undated ones in a row drifts, in a run from an untouched registration, and a line can then be lost |
| `SeamLimits.ReplayIsBounded` | crates/rustern-core/src/runtime/cursor_service.rs:92-104 | a reopen after a confirmed flush asks, without tail or window, from one second before the stamp of some line handed over by a stream of this or an earlier registration of the key; it is never earlier than one second before the ended stream's last line if and only if no older update of the key is still queued |
| `SeamLimits.ConfirmedCursorStepsBack` | crates/rustern-core/src/runtime/cursor_service.rs:92-104 | for any three lines within a second, a run is given in which the flush is confirmed while an older update is queued, so that the request can start earlier than that |
| `SeamLimits.ContiguousUnlessPartial` | crates/rustern-core/src/runtime/cursor_store.rs:147-191 | for registrations to which no cursor was left, and none came late before their first line, the lines handed over, those replayed from before the first one included, are one contiguous run in every run if and only if the first request asks for the whole log at any time (or for nothing) |
| `AttachLoop.FullJitterBackoff` | crates/rustern-core/src/source/retry.rs:6-12 | the delay lies within the saturating, capped exponential bound, and every value in it can come up |
| `AttachLoop.BackoffTable` | crates/rustern-core/src/source/retry.rs:6-12 | the caps before the five retries add up to 250, 750, 1750, 3750 and 7750 ms |
| `AttachLoop.AttachPodLogStream` | crates/rustern-core/src/runtime/attach.rs:54-154 | for every script of answers the loop leaves exactly the script's trace; the limit is reported only by a following task that found no permit; without cursors there is one round |
| `AttachLoop.TraceIsBounded` | crates/rustern-core/src/runtime/attach.rs:54-154 | for every script, in every prefix of its trace: at most 6 failed opens in a row, at most 7750 ms slept between two successful ones, 0 or 1 permit held and none while the end of a stream is awaited or slept for; at the end none is held; a failed first open ends the attach task at once; a request is a reopen exactly when it is not the first, and waits for the cursor of the stream that ended just before |
| `AttachLoop.SixFailuresEnd` | crates/rustern-core/src/runtime/attach.rs:126-152 | when, after any number of streams that came to their end, every open fails and nothing cancels, exactly six are tried: a stream that opens clears the count |
| `AttachLoop.CancelledRoundEnds` | crates/rustern-core/src/runtime/attach.rs:54-58 | a round that finds the token cancelled ends the trace there, whatever the script goes on with; any other begins with its request |
| `AttachLoop.OneRound` | crates/rustern-core/src/runtime/attach.rs:59-152 | one round and the trace of the rounds to come are the trace of all |
| `AttachLoop.RequestPermit` | crates/rustern-core/src/runtime/attach.rs:59-88 | one request; then the permit is taken if there is one, else a following task reports the limit and another one just returns |
| `AttachLoop.TrackStream` | crates/rustern-core/src/runtime/attach.rs:98-124 | the permit is given back before the end is awaited; the stream is opened again if and only if cursors are tracked and the end is the end of the file, and then with the last stamp as target |
| `AttachLoop.RetryOrGiveUp` | crates/rustern-core/src/runtime/attach.rs:125-153 | the permit is given back before the backoff; another try follows if and only if this was a reopen, fewer than five failed before, and nothing cancels before or during the backoff |
| `AttachPool.PermitsAddUp` | crates/rustern-core/src/runtime/attach.rs:71-124 | from any state where they do, permits held plus permits free stay the limit over all tasks and interleavings; only tasks that are opening or handing over hold one; failure counts stay within bounds |
| `AttachPool.PermitsOfARun` | crates/rustern-core/src/runtime/attach.rs:156-158 | so in every state of every run they add up to the limit asked for, and to one for a limit of zero |
| `AttachPool.RefusedWhenAllAreHeld` | crates/rustern-core/src/runtime/attach.rs:71-88 | with permits adding up, a task of a follow run is refused exactly when all permits are held, and can take one exactly when some is not |
| `AttachPool.LoopIsATask` | crates/rustern-core/src/runtime/attach.rs:54-154 | whatever its script, the loop of one attach task takes only steps that a task of this step system takes from the same state |
| `AttachPool.LimitReportedUnlessRaced` | crates/rustern-core/src/runtime/run.rs:190-266 | when a refused task is the first to cancel a follow run, the run reports the limit if and only if no message was sent between the last look at the limit channel and the look at the token; it reports the limit only if some task found no permit; a failed pipeline takes precedence; an exit trigger that fired is reported if and only if neither of them is |
| `AttachPool.LimitCanGoUnreported` | crates/rustern-core/src/runtime/attach.rs:71-81 | that race exists: a run with one permit that is cancelled by a refused second task and ends without reporting the limit |
| `LogLines.LogStreamWithRetry` | crates/rustern-core/src/source/pod_log.rs:150-175 | only errors that may pass are asked again, a client error other than 429 never; at most `maxAttempts` requests (one at least), with the sleeps within the backoff's bound; the result is the last answer's |
| `LogLines.RetryBackoffTable` | crates/rustern-core/src/source/retry.rs:6-12 | three attempts sleep at most 600 ms |
| `LogLines.ReadLines` | crates/rustern-core/src/source/pod_log.rs:99-140 | the reading loop gives one event per frame of the bytes, each with the stamp the resolver gives it and its decoded message; all of them when the reader ends, all ended ones and then the error when it fails, and those before it when the token is seen cancelled |
| `LogLines.FailureLosesPartOfALine` | crates/rustern-core/src/source/pod_log.rs:114-138 | when the reader fails, what is lost of the bytes it gave has no line feed, so it is at most the beginning of one line |
| `LogLines.FramesAreLines` | crates/rustern-core/src/source/pod_log.rs:114-118 | framing loses and moves no byte: the frames put together are the log, each ends with its only line feed, and only the last may lack one |
| `LogLines.FramesAppend` | crates/rustern-core/src/source/pod_log.rs:114-118 | what follows a line feed is framed by itself |
| `LogLines.ReadsBack` | crates/rustern-core/src/source/pod_log.rs:177-236 | any sequence of messages, with stamps that read back or with none, written as lines, is framed and split back to itself if and only if no message holds a line feed or ends with a carriage return, and in no undated one the part before the first space reads as a stamp |
| `LogLines.EntriesComeOut` | crates/rustern-core/src/source/pod_log.rs:88-146 | such entries come out of the reading loop with their whole messages, and with their stamps; an undated one is a microsecond after the entry before, or at the epoch |
| `ShardedMap.ShardedMap.ViewIsShards` | crates/rustern-core/src/runtime/pod_meta_cache.rs:17-27 | with every key in its own shard, a key has in the one map what its shard has |
| `ShardedMap.ShardedMap.Get` | crates/rustern-core/src/runtime/pod_meta_cache.rs:101-110 | a lookup reads the one map |
| `ShardedMap.ShardedMap.Record` | crates/rustern-core/src/runtime/cursor_store.rs:58-128 | recording is one write to the map |
| `ShardedMap.ShardedMap.Remove` | crates/rustern-core/src/runtime/pod_meta_cache.rs:87-99 | removing is one removal from the map |
| `ShardedMap.ShardedMap.RecordIfChanged` | crates/rustern-core/src/runtime/pod_meta_cache.rs:58-72 | the read-then-write double check acts as one write, either on the map as first seen or as other tasks left its shard in between |
| `ShardedMap.ShardedMap.Update` | crates/rustern-core/src/runtime/pod_meta_cache.rs:50-73 | without others in between it is one write |
| `ShardedMap.ShardedMap.Clear` | crates/rustern-core/src/runtime/pod_meta_cache.rs:75-79 | the loop over the shards ends with the empty map |
| `ShardedMap.ShardedMap.Prune` | crates/rustern-core/src/runtime/pod_meta_cache.rs:81-85 | the loop over the shards ends with the map restricted to the kept keys |
| `Discovery.CollectCandidates` | crates/rustern-core/src/discovery/container_keys.rs:90-121 | containers in order of placement, and exactly the main ones, the init ones if wanted, the ephemeral ones if wanted |
| `Discovery.StreamsAreLocated` | crates/rustern-core/src/discovery/container_keys.rs:123-151 | every stream of a pod carries the pod's context, namespace, name and uid; a pod without a uid has none |
| `Discovery.CollectSnapshot` | crates/rustern-core/src/runtime/watch_admission.rs:108-119 | a key is in the snapshot if and only if some pod of the listing has its stream (see the next row) |
| `Discovery.StreamIs` | crates/rustern-core/src/runtime/watch_admission.rs:72-106 | a pod has the stream of a key if and only if its name and namespace are the key's and pass the namespace list, the patterns and the condition, its uid is the key's, and it has the container, main or at a placement that is wanted, in an allowed state by its first status of that name, included by the pattern and not excluded by any |
| `Discovery.Reconcile` | crates/rustern-core/src/discovery/pod_reconcile.rs:18-24 | to drop and to add are the two differences, each key once, in key order |
| `Discovery.SortKeys` | crates/rustern-core/src/discovery/pod_reconcile.rs:5-16 | the same keys, in key order |
| `Discovery.SortedListUnique` | crates/rustern-core/src/discovery/pod_reconcile.rs:5-16 | there is only one such list, so the order a hash set yields its elements in does not matter |
| `Discovery.KeyOrder` | crates/rustern-core/src/discovery/pod_reconcile.rs:5-16 | the order of keys by context, namespace, pod, container and uid is total |
| `Discovery.KeysByField` | crates/rustern-core/src/discovery/pod_reconcile.rs:5-16 | the first field that differs decides, in the order context, namespace, pod, container, uid |
| `Registry.PodStreamRegistry.DropKeys` | crates/rustern-core/src/runtime/registry.rs:48-64 | dropping keys in turn does for each: cancel its token, forget its cursor, take it off the active set, queue one remove |
| `Registry.PodStreamRegistry.AddKey` | crates/rustern-core/src/runtime/registry.rs:66-72 | a new key gets a fresh token and one task; an active one nothing |
| `Registry.PodStreamRegistry.ReconcileSnapshot` | crates/rustern-core/src/runtime/registry.rs:87-98 | afterwards the active keys are the snapshot; streams that stay keep their tokens, tokens of dropped ones are cancelled, each dropped key is removed once, each added one has one new task |
| `Registry.PodStreamRegistry.ReconcilePod` | crates/rustern-core/src/runtime/registry.rs:100-119 | the same for the keys of one pod name, leaving all others alone |
| `Registry.PodStreamRegistry.RemovePod` | crates/rustern-core/src/runtime/registry.rs:74-85 | the keys of the pod and uid are dropped, no others |
| `Registry.Reconciling` | crates/rustern-core/src/runtime/registry.rs:87-119 | dropping one list and adding another, for any lists of the two differences, keeps the token table in step with the active set and makes exactly that move |
| `Registry.DroppingCancels` | crates/rustern-core/src/runtime/registry.rs:48-64 | every registered key that is dropped has its token cancelled, wherever it stands in the list |
| `Registry.DroppingAll` | crates/rustern-core/src/runtime/registry.rs:48-64 | dropping keeps table and active set equal, forgets the cursors of just these keys and queues their removes in order |
| `Registry.AddingAll` | crates/rustern-core/src/runtime/registry.rs:66-72 | adding distinct, unregistered keys gives them consecutive fresh tokens and keeps all others |
| `Lifecycle.PodLifecycle.OnDelete` | crates/rustern-core/src/runtime/pod_lifecycle.rs:29-40 | metadata of that uid and the streams of that pod and uid go; tokens follow |
| `Lifecycle.PodLifecycle.OnApply` | crates/rustern-core/src/runtime/pod_lifecycle.rs:42-58 | an admitted pod's streams replace all streams of its name, whatever their uid; a rejected one is a delete of its own uid |
| `Lifecycle.PodLifecycle.OnInitBegin` | crates/rustern-core/src/runtime/pod_lifecycle.rs:60-63 | the cache is emptied and the listing restarted while streams stay active |
| `Lifecycle.PodLifecycle.OnInitApply` | crates/rustern-core/src/runtime/pod_lifecycle.rs:65-71 | the pod is cached and listed, streams do not change |
| `Lifecycle.PodLifecycle.OnInitSnapshot` | crates/rustern-core/src/runtime/pod_lifecycle.rs:73-84 | active becomes the listing's streams, the cache is refreshed and pruned to them |
| `Lifecycle.PodLifecycle.OnInitDone` | crates/rustern-core/src/runtime/pod_lifecycle.rs:86-89 | the listing collected so far is taken as the snapshot |
| `Lifecycle.PodLifecycle.Watch` | crates/rustern-core/src/runtime/watch.rs:23-60 | the event loop is the fold of these steps over the events that are not errors |
| `Lifecycle.ErrorsAreSkipped` | crates/rustern-core/src/runtime/watch.rs:23-60 | an error is skipped wherever it comes, and every event is seen, in order |
| `WatchTrace.WatchRefinesPlain` | crates/rustern-core/src/runtime/pod_lifecycle.rs:29-89 | after every regular trace of Init, InitApply, InitDone, Apply and Delete the active keys are the union of the admitted streams over a plain map from names to pods, and outside a relist every active stream's metadata is cached and current |
| `WatchTrace.ActiveStreamsAre` | crates/rustern-core/src/runtime/pod_lifecycle.rs:29-89 | so a key is active if and only if the pod of its name in the plain map has that stream, by the pod's own fields |
| `WatchTrace.StepRefines` | crates/rustern-core/src/runtime/pod_lifecycle.rs:29-89 | each single event keeps that refinement |
| `WatchTrace.RejectedApplyRefines` | crates/rustern-core/src/runtime/pod_lifecycle.rs:42-58 | a rejected apply refines the plain map if and only if no stream of another uid is active under its name |
| `WatchTrace.RejectedApplyLeavesStreams` | crates/rustern-core/src/runtime/pod_lifecycle.rs:42-58 | from nothing, a pod with a stream followed by a rejected pod of its name with another uid leaves the stream active, so the trace does not refine the plain map |
| `WatchTrace.RejectedApplyHappens` | crates/rustern-core/src/runtime/pod_lifecycle.rs:42-58 | two pods and a condition for which it does |
| `WatchTrace.LateDeleteKeepsOtherUids` | crates/rustern-core/src/runtime/registry.rs:74-85 | a delete of an old uid leaves the streams and metadata of every other uid, in any state |
| `WatchTrace.DeletedMetaGoes` | crates/rustern-core/src/runtime/pod_lifecycle.rs:29-58 | a delete, and an apply that is turned away, forget the metadata of exactly this context, namespace, name and uid |
| `WatchTrace.RelistCacheIsExact` | crates/rustern-core/src/runtime/pod_lifecycle.rs:73-89 | after a relist, whatever came before, the cache holds exactly the pods of active streams |
| `WatchTrace.ApplyAgreesWithListing` | crates/rustern-core/src/runtime/pod_lifecycle.rs:42-84 | for pods of distinct names, applying them in any order and taking them as one listing give the same active set and the same metadata for every stream |
| `LiveStreams.NoOrphanLiveStream` | crates/rustern-core/src/runtime/registry.rs:48-72 | in every interleaving of watch, attach and mux steps: a token that is not cancelled is the one its own active key holds, for tasks, streams in the mux and queued adds alike; the token table's keys are the active ones at every event boundary and among them in between |
| `LiveStreams.AwaitedStreamIsSomewhere` | crates/rustern-core/src/runtime/attach.rs:98-124 | the stream a task waits for is in exactly one place: queued, in the mux, or at its signalled end |
| `LiveStreams.LiveStreamStays` | crates/rustern-core/src/runtime/mux.rs:27-49 | a live stream leaves the mux if and only if it ends by itself or a cancelled task's late add of the same key replaces it; no remove does it |
| `LiveStreams.LateAddReplacesLiveStream` | crates/rustern-core/src/runtime/mux.rs:34-39 | such a replacement happens: the registered key is then left with the stream of a cancelled task |
| `LiveStreams.StepsDropKey` | crates/rustern-core/src/runtime/registry.rs:48-64 | the four interleaved steps of a drop together are the registry's drop of a key |
| `Dataflow.NothingUncountedNothingReordered` | crates/rustern-core/src/runtime/mux.rs:50-75 | in every reachable state, cancelled or not: rows polled are those dropped by the mux, queued, taken and at most one in hand; lines of the pipeline are those dropped, forwarded and at most one in hand; of each source what was polled is its beginning in order, and what is displayed is in order a part of its display |
| `Dataflow.BlockingDropsNothing` | crates/rustern-core/src/runtime/forward.rs:303-356 | with both tiers blocking both drop counts are zero and what is forwarded is a prefix of the display of what was polled |
| `Dataflow.RenderGetsForwarded` | crates/rustern-core/src/runtime/forward.rs:303-356 | in every run the render task gets exactly the forwarded lines, each once and in order, between the flushes |
| `Dataflow.CancelledWhy` | crates/rustern-core/src/pipeline/exit_watch.rs:89-134 | a run is cancelled if and only if it was from outside, or a row that fires was taken off the raw channel |
| `Dataflow.RunsCloseLast` | crates/rustern-core/src/runtime/attach.rs:98-124 | in every state of an undisturbed, blocking no-follow run: an add meets no stream under its key, and when the mux finds its command channel closed, every opened stream was polled to its end |
| `Dataflow.ClosedIsLast` | crates/rustern-core/src/runtime/attach.rs:98-124 | the latter in every state that keeps the run's invariant |
| `Dataflow.NothingReplaced` | crates/rustern-core/src/runtime/mux.rs:34-39 | the former in every state that keeps the run's invariant |
| `Dataflow.NoFollowRunIsLossless` | crates/rustern-core/src/runtime/run.rs:175-188 | when the forward task of an undisturbed, blocking no-follow run is done, no sender is left, every opened stream's complete rows were polled, and what was forwarded is the display of that one interleaving |
| `Dataflow.NoFollowTasksAreComplete` | crates/rustern-core/src/runtime/attach.rs:98-124 | when besides no open fails, the complete rows of every task that was started were polled |
| `Dataflow.NoFollowStreamIsComplete` | crates/rustern-core/src/runtime/mux_forward_core.rs:33-127 | so of each stream exactly the lines of its own pipeline output are forwarded, in order |
| `Dataflow.LinesAreOutput` | crates/rustern-core/src/runtime/spec.rs:64-145 | the display of a stream in the flow is the Ok part of the pipeline's output for it |
| `Dataflow.DisplayedOf` | crates/rustern-core/src/runtime/mux_forward_core.rs:33-127 | displaying an interleaving and looking at one stream is displaying that stream |
| `MuxForward.MuxMultiplexLoop` | crates/rustern-core/src/runtime/mux.rs:27-81 | the loop against any script of select results: it stops exactly at a cancelled token, a closed command channel or a row nobody receives, and else uses the script up; what is sent, dropped and left in the stream map, and the gauge of active streams, which is zero once stopped |
| `MuxForward.MuxLoopIsATier` | crates/rustern-core/src/runtime/mux.rs:50-75 | whenever the mux loop stops, sent, dropped and at most one row in hand are the rows polled, in order; with blocking sends nothing is dropped |
| `MuxForward.KeysAre` | crates/rustern-core/src/runtime/mux.rs:34-48 | the stream map holds a key if and only if its last add was followed by no remove and no end of its stream |
| `MuxForward.RowsOffered` | crates/rustern-core/src/runtime/mux.rs:50-75 | each row a stream gives, an error like any other, is offered once and in order, and nothing else is |
| `MuxForward.GaugeIsNeverLow` | crates/rustern-core/src/runtime/mux.rs:34-48 | the gauge never counts fewer streams than the map holds, and counts them exactly as long as no stream has ended by itself |
| `MuxForward.GaugeIsOfLastCommand` | crates/rustern-core/src/runtime/mux.rs:34-48 | the gauge is the size the map had after the last add, or remove that found its key, and zero before any |
| `MuxForward.ForwardToRender` | crates/rustern-core/src/runtime/forward.rs:303-356 | the loop against any script: it stops exactly at a cancelled token, the end of the pipeline or a line nobody receives, and not at a source error; lines sent, drops counted, API errors counted and not sent |
| `MuxForward.ForwardLoopIsATier` | crates/rustern-core/src/runtime/forward.rs:303-356 | whenever the forward loop stops, sent, dropped and at most one line in hand are the pipeline's lines, in order |
| `MuxForward.LinesOffered` | crates/rustern-core/src/runtime/forward.rs:303-356 | each event is offered once and in order, errors are not; only errors of the API are counted |
| `MuxForward.OffersAreATier` | crates/rustern-core/src/runtime/mux.rs:50-75 | any loop that offers items to a bounded channel and stops at the first that is refused keeps that balance and order |
| `MuxForward.AnswersDecide` | crates/rustern-core/src/runtime/mux.rs:50-75 | an accepted offer is sent, one met by a full channel is dropped and counted if lossy and waits if blocking, one nobody receives is neither |
| `MuxForward.RunStats.SnapshotAndReset` | crates/rustern-core/src/runtime/forward.rs:117-124 | the line counters are reported and start anew, the gauge and the error count stay |
| `WarnLimiter.LossyMetrics.RecordDrop` | crates/rustern-core/src/runtime/forward.rs:257-279 | one call of the compare-and-swap loop among others' writes: it ends; some warning is then less than 5000 ms older than its clock; it warns only if the interval was over, with its own clock as the new value; each failed exchange means another thread moved the word on by at least an interval |
| `WarnLimiter.WarningsAreLimited` | crates/rustern-core/src/runtime/forward.rs:257-296 | under every interleaving of threads inside the limiter: winning values rise by at least 5000 ms, so there are at most T/5000 warnings up to T; drops are the reported windows plus the counter; failed exchanges of a call are bounded by its clock |
| `WarnLimiter.FailureIsProgress` | crates/rustern-core/src/runtime/forward.rs:263-279 | a failed exchange strictly lowers the time the loop still sees as elapsed, so every loop ends |
| `Pipeline.ApplyPipeline` | crates/rustern-core/src/runtime/spec.rs:64-145 | for every combination of filters, query, level key and exit options: the output is each row's own display in order, in which exit options play no part; and the trigger is set (and the token cancelled) exactly when some raw row matches an exit pattern or its classified level reaches the threshold, whatever the filters hide |
| `Pipeline.WatchRows` | crates/rustern-core/src/runtime/spec.rs:90-122 | the same for the stages up to the level trigger |
| `Pipeline.StagesShow` | crates/rustern-core/src/pipeline/stage_order.rs:24-43 | the stages in each of the orders that can be resolved come to the same display, for every stream |
| `Pipeline.StagesShowRow` | crates/rustern-core/src/pipeline/stage_order.rs:24-43 | and so they do row by row |
| `Pipeline.LabelledFires` | crates/rustern-core/src/pipeline/exit_watch.rs:116-134 | on the annotated and classified stream some level reaches the threshold if and only if some row's own level does |
| `Pipeline.ExitWatchMessage` | crates/rustern-core/src/pipeline/exit_watch.rs:96-114 | rows pass unchanged; the flag is set if and only if it was, or some message matches |
| `Pipeline.ExitWatchLevel` | crates/rustern-core/src/pipeline/exit_watch.rs:116-134 | rows pass unchanged; the flag is set if and only if it was, or some level is the threshold or a later one in the order trace, debug, info, warn, error |
| `Pipeline.ExitWatchState.Fire` | crates/rustern-core/src/pipeline/exit_watch.rs:89-93 | the flag is set, and the token is cancelled by the first call only |
| `Pipeline.FilterRows` | crates/rustern-core/src/pipeline/include_exclude.rs:14-38 | leaving the stage out when there are no patterns, or when the order puts it elsewhere, changes nothing |
| `Pipeline.FormatOutputsJoined` | crates/rustern-core/src/pipeline/jq_evaluate.rs:27-36 | the outputs, one per line |
| `Pipeline.ErrorsPass` | crates/rustern-core/src/pipeline/jq_evaluate.rs:83-137 | source errors reach the end of the pipeline, all of them, in order |
| `Pipeline.QueryKeepsTriggers` | crates/rustern-core/src/pipeline/level_classify.rs:28-59 | for level paths that both lookups agree on, whether a line triggers does not depend on there being a query, though the query decides which library parses the line |
| `ShownLines.WordTriggers` | crates/rustern-core/src/pipeline/exit_watch.rs:116-134 | a JSON line whose level field is a word of one level, with a threshold given as a word of another, calls for the exit if and only if its level is not the earlier one (or its message matches) |
| `ShownLines.LabelsOfALine` | crates/rustern-core/src/pipeline/json_annotate.rs:7-31 | a line is read as JSON exactly when a query or the level asks for it, it begins with a brace after white, and it parses; its level is the one the string under the path names, and everything else stays |
| `ShownLines.LineWithoutQuery` | crates/rustern-core/src/pipeline/include_exclude.rs:14-38 | without a query a line is shown, unchanged but for level and colours, unless no include pattern matches, or, without include patterns, some exclude pattern does |
| `ShownLines.LineFiltered` | crates/rustern-core/src/pipeline/jq_evaluate.rs:83-117 | a filtering query shows, of the lines the patterns let through, exactly those that are JSON and for which some result is neither null nor false nor an error, unchanged |
| `ShownLines.LineRewritten` | crates/rustern-core/src/pipeline/jq_evaluate.rs:118-132 | a replacing or appending query hides nothing; the message becomes, or is followed by, the results one per line, a line that is no JSON keeps its own, and the patterns are for the old message or the new one as the options say |
| `ShownLines.ResultsAppend` | crates/rustern-core/src/pipeline/jq_evaluate.rs:71-81 | errors of single results are left out, the others stay in order |
| `ShownLines.LineColours` | crates/rustern-core/src/pipeline/color_assign.rs:38-58 | a line that has a colour keeps it; another is given the one of its pod, or of its container, exactly if that is asked for |
| `Pipeline.EachThen` | crates/rustern-core/src/runtime/spec.rs:64-145 | a stage after a stage is one stage |
| `Pipeline.EachAppends` | crates/rustern-core/src/runtime/spec.rs:64-145 | rows pulled later only add to the output |
| `Levels.ThresholdsMatchLevels` | crates/rustern-core/src/pipeline/exit_watch.rs:19-69 | the command line knows exactly the words that classification knows and ranks them alike; unknown words rank as info; classifying first never changes a rank |
| `Levels.RanksReach` | crates/rustern-core/src/pipeline/exit_watch.rs:46-69 | comparing ranks is comparing places in that order, where a level that is no known word counts as info |
| `Levels.LevelWords` | crates/rustern-core/src/pipeline/level_classify.rs:9-26 | which words, in any case, name which level; any other is kept as it is |
| `Levels.ThresholdWords` | crates/rustern-core/src/pipeline/exit_watch.rs:19-31 | which words, in any case and with white around them, name which threshold |
| `DotPath.LookupsAgree` | crates/rustern-core/src/source/parsed_json.rs:20-43 | the JSON Pointer made from a dot path and the walk over its keys find the same string in all documents without an array on the way if and only if no segment is empty and none holds "~0" or "~1" |
| `DotPath.LookupsAgreeOnArrays` | crates/rustern-core/src/source/parsed_json.rs:20-43 | they agree on all documents if and only if, besides, no segment reads as an array index |
| `DotPath.UnescapeEscape` | crates/rustern-core/src/source/parsed_json.rs:60-71 | unescaping (section 4 of RFC 6901) undoes the escaping of a segment if and only if it holds neither "~0" nor "~1" |
| `DotPath.PointerTokensAre` | crates/rustern-core/src/source/parsed_json.rs:60-71 | splitting the pointer undoes joining it: its reference tokens are the path's segments, escaped and unescaped |
| `DotPath.SameKeys` | crates/rustern-core/src/source/parsed_json.rs:73-78 | the pointer's tokens are the walked keys if and only if the path is good |
| `DotPath.ValDotPathWithKeys` | crates/rustern-core/src/source/parsed_json.rs:80-89 | the loop finds what the walk over the keys finds |
| `DotPath.ValDotPath` | crates/rustern-core/src/source/parsed_json.rs:91-104 | splitting while walking finds the same as walking the split keys |
| `Selector.TextMeansSelector` | crates/rustern-core/src/discovery/workload_selector.rs:59-103 | of a selector of which something is printed the text can be read; all labels that satisfy the selector satisfy the text, and no others if nothing was skipped |
| `Selector.TextMeansPrinted` | crates/rustern-core/src/discovery/workload_selector.rs:36-103 | the sorted, comma-joined text can be read if and only if no value list is just the empty string, and then holds of exactly the labels that satisfy the labels and all requirements that were printed |
| `Selector.FragmentParses` | crates/rustern-core/src/discovery/workload_selector.rs:36-57 | each printed requirement reads back with its meaning, commas between parentheses included, except the value list that prints as "()" |
| `Selector.SplitTopJoin` | crates/rustern-core/src/discovery/workload_selector.rs:59-103 | splitting at the commas outside parentheses undoes joining the parts |
| `Selector.EmptyValueCannotBeRead` | crates/rustern-core/src/discovery/workload_selector.rs:39-44 | a requirement for the empty value, which labels can satisfy, prints as a text that cannot be read |
| `Selector.FallbackWidens` | crates/rustern-core/src/discovery/workload_selector.rs:93-103 | when everything is skipped, all labels that satisfy the selector satisfy the fallback to the name if and only if the selector holds of no labels, because of an empty In, or its unknown operators themselves ask for the name |
| `Selector.FallbackWidensKnown` | crates/rustern-core/src/discovery/workload_selector.rs:93-103 | with the operators that Kubernetes knows, that is if and only if there is an empty In |
| `Selector.FallbackCanNarrow` | crates/rustern-core/src/discovery/workload_selector.rs:93-103 | for any key and name, a requirement with an empty NotIn is skipped, and the fallback misses labels that satisfy it |
| `Selector.TextMeansLabels` | crates/rustern-core/src/discovery/workload_selector.rs:20-25 | the text of plain labels holds of exactly the labels that have them all |
| `Selector.LabelSelectorFromMeta` | crates/rustern-core/src/discovery/workload_selector.rs:59-103 | the loops print the parts, sorted and joined, or the name when there are none |
| `Selector.UnifyLabelSelectors` | crates/rustern-core/src/discovery/workload_selector.rs:335-354 | sorting and deduplicating yields the common selector if and only if all are the same, else the fallback |

## Left out

- Kubernetes client, kubeconfig, exec plugins and the asynchronous `GET` wrappers: network, process and file I/O.
- Command line, configuration mapping and reports: flags handed on, with one branch each.
- Formatters, colours other than the palette index, highlighting, time zones and writing to standard output: the render
  channel is where the model ends.
- Internals of regular expressions, queries, JSON parsing, date libraries and hash functions: arbitrary functions with the
  few laws named above.
- Wall-clock behaviour: tickers, the 150 ms joins at shutdown and aborted tasks. A run here is one without an abort.
- Fairness and liveness of the scheduler: only bounds and measures that go down are proved (`PatienceRunsOut`,
  `FailureIsProgress`, and the loops, which end).
- Permits in the flow: `Dataflow` lets any task open at any time, `AttachPool` has the permits; both allow more runs than
  there are.
- Undated lines at a seam: `Seam` speaks of dated lines; a server promises nothing about where undated ones come again.
- Log rotation and loss at the server: a line of the log stays there.
- Seam.NoGapAtTheSeam: excludes blind reopens, drifting stamps, stale cursors and late cursors that outrun, which are the
  conditions under which it fails, as `ReopenIsSafeUnlessBlind`, `LineIsSafeUnlessItDrifts`, `GapFreeUnlessStale` and
  `LateCursorIsSafeUnlessItOutruns` state. Lines that a stream of an earlier registration shows under the same key are
  not counted as handed over.
- SeamLimits.LateCursorIsSafeUnlessItOutruns: speaks of late cursors no earlier than the epoch, and from which one second
  back is still a year of four digits.
- SeamLimits.LineIsSafeUnlessItDrifts: speaks of lines after a first dated one, and of stamps whose cursor still has a
  four-digit year.
- SeamLimits.ContiguousUnlessPartial: speaks of registrations to which no cursor was left (or one of the first second
  after the epoch) and none comes late before the first line; such a cursor can bring a first line that is not the
  oldest, whatever is asked for.
- Pipeline.ApplyPipeline: takes the rows that are pulled as a finite sequence; `EachAppends` says that pulling more only
  adds. A query's own error rows do not occur, because the source drops the errors of single results and always returns
  a list.
- Pipeline.QueryKeepsTriggers: assumes that both JSON libraries read the line the same way.
- Selector.TextMeansSelector: reads the spacing and the forms that are printed (`k=v`, `k in (a,b)`, `k notin (a,b)`, `k`,
  `!k`), not all that Kubernetes accepts (`==`, `!=`, other spaces).
- LiveStreams.LiveStreamStays: does not model that a stream whose token is cancelled ends by itself; it may end at any
  time.
- MuxForward.MuxMultiplexLoop: takes what the select and the channel answer as a script, with no relation between the
  answers and a receiver; `Dataflow` has that relation.
- Lossy decoding of bytes that are no UTF-8: `decode` is an arbitrary function of the message's bytes.
