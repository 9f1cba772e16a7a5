# AudioPlayer core in Dafny

This project models the state-holding core of the Swift `AudioPlayer` library and proves properties of it. The core has five parts:

- **Player-event handler.** The player reacts to each event its media engine reports: the item ended, an interruption began or ended, a duration, metadata or a time range loaded, progress, ready to play, playback likely to keep up, the route changed, the audio session broke, or buffering started. It updates its state fields, the queued seek, the interruption flag and the quality adjuster's interruption counter. `PlayerEvents.Transition` states the outcome of one event as a pure function. The class `Player.AudioPlayer` has one method per event, and each is proved to do exactly what `Transition` says.
- **Network event producer.** This is a small state machine over `listening`, `lastConnection` and the loss date. It emits `connectionLost`, `connectionRetrieved` or `networkChanged` once per real change of connection category. The library's own unit tests appear as scenario methods.
- **Queue control surface.** `play(items:startAtIndex:)` validates its arguments, prunes the URL→asset cache against the new playlist, builds a queue and places its cursor. `add`, `removeItem`, `hasNext`, `hasPrevious` and `currentItemIndexInQueue` are modelled too. The item queue is abstracted as two sequences, `playOrder` (shuffled in shuffle mode) and `items` (the order given), plus the cursor `nextPosition`.
- **Asset cache.** Assets are reused only while no preload key has failed. An asset whose preload does not fully load is evicted. Preload-ahead fills the cache only for a URL that is not already cached.
- **Remote-control bridge.** This covers how platform command events dispatch to player actions (including the toggle rule), which platform commands each player command registers, and how the repeat and shuffle flags of the mode set are edited.

Calls into code outside the model are appended to a `calls` log of `Effect` values: `pause()`, `resume()`, `nextOrStop()`, `seek`, delegate notifications, `playImmediately()`, preloading, background tasks and so on. Everything the player-event handler reads from the rest of the player is an `Environment` input: connectivity, whether the item is offline, the resume policy, the engine, and the loaded range and loaded-ahead duration. The shuffle permutation is the parameter `shuffled`. The platform version is a `PlatformLevel`.

One divergence of the source is kept as written. `play` finds the start cursor in the play order (`queue.queue`). `preloadNextItemAsset` indexes the given order (`queue.items`) with that cursor, and `currentItemIndexInQueue` searches the given order. `Player.PreloadTarget` and `Player.AudioPlayer.CurrentItemIndexInQueue` therefore use `items`. `Player.ShuffledPreloadMissesNextItem` and `Queue.OrdersCanDisagree` show that in shuffle mode the preloaded URL need not belong to the item that plays next.

## Model

| member | source | states |
|---|---|---|
| PlayerEvents.IsInternetConnectionError | AudioPlayer/AudioPlayer/player/extensions/AudioPlayer+PlayerEvent.swift:173-179 | true exactly for the URL errors "not connected to internet" and "network connection lost"; false for no error and for other error kinds |
| PlayerEvents.IsEndedEarlyError | AudioPlayer/AudioPlayer/player/extensions/AudioPlayer+PlayerEvent.swift:181-183 | true exactly for the ended-early error, which is never an internet-connection error |
| PlayerEvents.Transition | AudioPlayer/AudioPlayer/player/extensions/AudioPlayer+PlayerEvent.swift:17-168 | every event keeps the fields consistent (failed has an error, buffering remembers its prior state, waiting remembers what it was doing); the interruption counter grows by 0 or 1; interruption, duration, metadata, range and ready-to-play events never change the state |
| PlayerEvents.EndedPlayingWaitsForConnection | AudioPlayer/AudioPlayer/player/extensions/AudioPlayer+PlayerEvent.swift:19-25 | an online item ending on an internet error, or ending early while offline, moves to waiting-for-connection with `stateWhenConnectionLost` = playing and makes no call |
| PlayerEvents.EndedPlayingFails | AudioPlayer/AudioPlayer/player/extensions/AudioPlayer+PlayerEvent.swift:26-34 | any other error that is not ended-early fails the player, keeps the error, and clears the queued seek and its handler |
| PlayerEvents.EndedPlayingFinishes | AudioPlayer/AudioPlayer/player/extensions/AudioPlayer+PlayerEvent.swift:35-40 | with no error, or an early end that does not wait, the fields are unchanged; the delegate hears that the current item finished (if there is one), then `nextOrStop` is called |
| PlayerEvents.EndedPlayingByErrorClass | AudioPlayer/AudioPlayer/player/extensions/AudioPlayer+PlayerEvent.swift:19-40 | the resulting state for each error class: a network error waits (or fails for an offline item), an early end waits only while offline, no error keeps the state, anything else fails |
| PlayerEvents.InterruptionBeganPauses | AudioPlayer/AudioPlayer/player/extensions/AudioPlayer+PlayerEvent.swift:42-47 | only while playing or buffering: a background task begins, `pausedForInterruption` is set and the player pauses; otherwise nothing happens |
| PlayerEvents.InterruptionEndedResumes | AudioPlayer/AudioPlayer/player/extensions/AudioPlayer+PlayerEvent.swift:49-55 | the flag is always clear afterwards; after a pause for interruption the player resumes iff the policy and the system allow it, and the background task ends last; otherwise nothing happens |
| PlayerEvents.ReadyToPlayPerformsQueuedSeek | AudioPlayer/AudioPlayer/player/extensions/AudioPlayer+PlayerEvent.swift:109-116 | a queued seek above 0 is performed exactly once with zero tolerances and its handler, then cleared; otherwise nothing changes |
| PlayerEvents.PlaybackLikelyToKeepUpSettles | AudioPlayer/AudioPlayer/player/extensions/AudioPlayer+PlayerEvent.swift:118-133 | per the resume policy: playing at the configured rate with no remembered buffering state, or paused at rate 0; both then request the next preload and stop the retry producer |
| PlayerEvents.StartedBufferingRecordsInterruption | AudioPlayer/AudioPlayer/player/extensions/AudioPlayer+PlayerEvent.swift:153-164 | the counter grows by exactly 1 iff playing and no quality change is under way; the old state is remembered; the new state is buffering when online or the item is offline, otherwise waiting-for-connection |
| PlayerEvents.LoadedMoreRangePlaysImmediately | AudioPlayer/AudioPlayer/player/extensions/AudioPlayer+PlayerEvent.swift:69-85 | the fields are unchanged; playback starts at once iff the strategy waits for a full preferred buffer, the player plays or buffers, and the known loaded-ahead duration is normal and reaches the preference |
| PlayerEvents.ProgressedRepairsState | AudioPlayer/AudioPlayer/player/extensions/AudioPlayer+PlayerEvent.swift:87-107 | on a ready item, buffering or paused becomes playing (engine rate set to the configured rate, remembered buffering state cleared) or paused (engine rate 0) per the resume policy, with nothing else changed; other states are untouched; the progression is always reported last |
| PlayerEvents.RouteChangedPausesStoppedEngine | AudioPlayer/AudioPlayer/player/extensions/AudioPlayer+PlayerEvent.swift:135-140 | the state becomes paused exactly when the engine's rate is 0, with no call |
| PlayerEvents.SessionMessedUpRestarts | AudioPlayer/AudioPlayer/player/extensions/AudioPlayer+PlayerEvent.swift:142-151 | on iOS and tvOS the session is reactivated, the player stops, one interruption is counted and retry-or-next is called; elsewhere nothing happens |
| PlayerEvents.RunKeepsConsistency | AudioPlayer/AudioPlayer/player/extensions/AudioPlayer+PlayerEvent.swift:17-168 | any sequence of events keeps the fields consistent, and the interruption counter never shrinks and grows by at most one per event |
| PlayerEvents.InterruptionRoundTrip | AudioPlayer/AudioPlayer/player/extensions/AudioPlayer+PlayerEvent.swift:42-55 | an interruption that begins during playback and ends with permission pauses, then resumes inside one background task and leaves the flag clear |
| Player.AudioPlayer.HandlePlayerEvent | AudioPlayer/AudioPlayer/player/extensions/AudioPlayer+PlayerEvent.swift:17-168 | the player's new fields and calls are exactly those of `Transition` for the event, and the player stays valid |
| Player.AudioPlayer.HandleEndedPlaying | AudioPlayer/AudioPlayer/player/extensions/AudioPlayer+PlayerEvent.swift:19-40 | the ended-playing branch assigns the fields in place as `Transition` says |
| Player.AudioPlayer.HandleInterruptionBegan | AudioPlayer/AudioPlayer/player/extensions/AudioPlayer+PlayerEvent.swift:42-47 | the interruption-began branch as `Transition` says |
| Player.AudioPlayer.HandleInterruptionEnded | AudioPlayer/AudioPlayer/player/extensions/AudioPlayer+PlayerEvent.swift:49-55 | the interruption-ended branch as `Transition` says |
| Player.AudioPlayer.HandleLoadedDuration | AudioPlayer/AudioPlayer/player/extensions/AudioPlayer+PlayerEvent.swift:57-61 | with a current item and a finite duration: now-playing info is updated and the delegate hears the duration; the fields are unchanged |
| Player.AudioPlayer.HandleLoadedMetadata | AudioPlayer/AudioPlayer/player/extensions/AudioPlayer+PlayerEvent.swift:63-67 | with a current item and non-empty metadata: the item parses it and the delegate hears it; the fields are unchanged |
| Player.AudioPlayer.HandleLoadedMoreRange | AudioPlayer/AudioPlayer/player/extensions/AudioPlayer+PlayerEvent.swift:69-85 | the loaded-range branch as `Transition` says |
| Player.AudioPlayer.HandleProgressed | AudioPlayer/AudioPlayer/player/extensions/AudioPlayer+PlayerEvent.swift:87-107 | the progressed branch as `Transition` says |
| Player.AudioPlayer.HandleReadyToPlay | AudioPlayer/AudioPlayer/player/extensions/AudioPlayer+PlayerEvent.swift:109-116 | the ready-to-play branch as `Transition` says |
| Player.AudioPlayer.HandlePlaybackLikelyToKeepUp | AudioPlayer/AudioPlayer/player/extensions/AudioPlayer+PlayerEvent.swift:118-133 | the likely-to-keep-up branch as `Transition` says |
| Player.AudioPlayer.HandleRouteChanged | AudioPlayer/AudioPlayer/player/extensions/AudioPlayer+PlayerEvent.swift:135-140 | the route-changed branch as `Transition` says |
| Player.AudioPlayer.HandleSessionMessedUp | AudioPlayer/AudioPlayer/player/extensions/AudioPlayer+PlayerEvent.swift:142-151 | the session-messed-up branch as `Transition` says |
| Player.AudioPlayer.HandleStartedBuffering | AudioPlayer/AudioPlayer/player/extensions/AudioPlayer+PlayerEvent.swift:153-164 | the started-buffering branch as `Transition` says |
| Network.EventFor | AudioPlayer/AudioPlayer/event/NetworkEventProducer.swift:101-116 | no event iff the connection is unchanged; lost iff it changed to none; retrieved iff it changed from none; network-changed iff it changed between two real connections |
| Network.NetworkEventProducer.constructor | AudioPlayer/AudioPlayer/event/NetworkEventProducer.swift:48-55 | the last connection is the monitor's (none without a monitor); a loss date is recorded iff that is none; not listening |
| Network.NetworkEventProducer.StartProducingEvents | AudioPlayer/AudioPlayer/event/NetworkEventProducer.swift:63-81 | a no-op when already listening or without a monitor; otherwise refreshes the last connection and starts listening |
| Network.NetworkEventProducer.StopProducingEvents | AudioPlayer/AudioPlayer/event/NetworkEventProducer.swift:84-96 | not listening afterwards; a no-op unless listening |
| Network.NetworkEventProducer.ReachabilityStatusChanged | AudioPlayer/AudioPlayer/event/NetworkEventProducer.swift:101-116 | an unchanged connection changes nothing; a change delivers exactly the event `EventFor` names, sets or clears the loss date as the category requires, and remembers the new connection |
| Network.EventsAlternate | AudioPlayer/AudioPlayer/event/NetworkEventProducer.swift:101-116 | over any sequence of observations the listener never hears a loss or network change while disconnected, nor a retrieval while connected |
| Network.OneEventPerChange | AudioPlayer/AudioPlayer/event/NetworkEventProducer.swift:104-115 | the number of events equals the number of real changes of connection |
| Network.RetrievedScenario | AudioPlayer/AudioPlayerTests/NetworkEventProducer_Tests.swift:34-49 | going from no connection to wifi delivers exactly `connectionRetrieved` |
| Network.UnchangedScenario | AudioPlayer/AudioPlayerTests/NetworkEventProducer_Tests.swift:51-67 | a notification repeating the current connection delivers nothing |
| Network.LostScenario | AudioPlayer/AudioPlayerTests/NetworkEventProducer_Tests.swift:69-86 | wifi then no connection delivers `connectionLost` (after the retrieval) and records the loss date; the test's `.unavailable` is taken to be the `.none` the producer compares with, as listed under Left out |
| Network.ChangedScenario | AudioPlayer/AudioPlayerTests/NetworkEventProducer_Tests.swift:88-105 | wifi then cellular delivers `networkChanged` (after the retrieval) |
| Network.StartStopIdempotent | AudioPlayer/AudioPlayer/event/NetworkEventProducer.swift:63-96 | starting twice leaves the same listening flag and connection as starting once; stopping twice leaves the producer stopped |
| Queue.PlayOrder | AudioPlayer/AudioPlayer/player/extensions/AudioPlayer+Queue.swift:60 | the new queue's play order is a permutation of the items, and is the items themselves outside shuffle mode |
| Queue.NewQueue | AudioPlayer/AudioPlayer/player/extensions/AudioPlayer+Queue.swift:60 | a new queue holds both orders with its cursor at 0 and is valid |
| Queue.NextItem | AudioPlayer/AudioPlayer/player/extensions/AudioPlayer+Queue.swift:65 | hands out the play-order item at the cursor and advances it iff there is one; otherwise nothing, and the queue is unchanged |
| Queue.FirstIndex | AudioPlayer/AudioPlayer/player/extensions/AudioPlayer+Queue.swift:61 | none iff the item is absent; otherwise an index holding the item with no earlier occurrence |
| Queue.Append | AudioPlayer/AudioPlayer/player/extensions/AudioPlayer+Queue.swift:82 | appends to both orders; the cursor and the next item to play stay |
| Queue.RemoveAt | AudioPlayer/AudioPlayer/player/extensions/AudioPlayer+Queue.swift:96 | the play order loses exactly the element at the index, the rest in order; the given order loses one copy of that item; a cursor past the index moves back by one; the queue stays valid, and removing another item than the next one keeps the next item to play |
| Queue.PlaylistUrlsAreOffered | AudioPlayer/AudioPlayer/player/extensions/AudioPlayer+Queue.swift:51 | a URL is in the new playlist's URL set iff some item offers it as a sound URL |
| Queue.StartItemIsRequested | AudioPlayer/AudioPlayer/player/extensions/AudioPlayer+Queue.swift:60-65 | the requested item occurs in any permutation, and taking the next item from its first play-order position yields that item |
| Queue.StartQueue | AudioPlayer/AudioPlayer/player/extensions/AudioPlayer+Queue.swift:60-65 | the started queue is valid, holds the given orders, has handed out exactly `items[index]`, and its cursor is just past that item's first play-order position |
| Queue.OrdersCanDisagree | AudioPlayer/AudioPlayer/player/extensions/AudioPlayer+Queue.swift:60-65 | a shuffled queue can hand out a different item than the given order holds at the cursor |
| Player.AudioPlayer.Items | AudioPlayer/AudioPlayer/player/extensions/AudioPlayer+Queue.swift:11-13 | none iff there is no queue; otherwise the play order |
| Player.AudioPlayer.CurrentItemIndexInQueue | AudioPlayer/AudioPlayer/player/extensions/AudioPlayer+Queue.swift:16-18 | some iff there is a current item and a queue whose given order holds it; then the first index of it there |
| Player.AudioPlayer.HasNext | AudioPlayer/AudioPlayer/player/extensions/AudioPlayer+Queue.swift:21-23 | true iff there is a queue whose cursor is before the end; false without a queue |
| Player.AudioPlayer.HasPrevious | AudioPlayer/AudioPlayer/player/extensions/AudioPlayer+Queue.swift:26-28 | true iff there is a queue whose cursor is past its second position; false without a queue |
| Player.CacheRestrictedTo | AudioPlayer/AudioPlayer/player/extensions/AudioPlayer+Queue.swift:50-58 | the cache entries whose URL is in the set, with unchanged assets |
| Player.AudioPlayer.KeepCachedAssets | AudioPlayer/AudioPlayer/player/extensions/AudioPlayer+Queue.swift:50-58 | the loop leaves exactly the entries whose URL is among the new URLs, with unchanged assets |
| Player.AudioPlayer.StartQueueAt | AudioPlayer/AudioPlayer/player/extensions/AudioPlayer+Queue.swift:59-65 | the new queue holds the items in the mode's play order, its cursor is just past the first play-order position of `items[index]`, and that item becomes current |
| Player.AudioPlayer.Play | AudioPlayer/AudioPlayer/player/extensions/AudioPlayer+Queue.swift:42-66 | invalid arguments stop the player, drop the queue, and leave the cache and current item alone; otherwise the cache keeps exactly the new playlist's URLs with unchanged assets, and the queue is started at `items[index]`, which becomes current |
| Player.AudioPlayer.Add | AudioPlayer/AudioPlayer/player/extensions/AudioPlayer+Queue.swift:80-86 | with a queue, appends to it and changes nothing else; without one, has exactly the outcome of playing the items from index 0 |
| Player.AudioPlayer.EvictUrls | AudioPlayer/AudioPlayer/player/extensions/AudioPlayer+Queue.swift:93-95 | the loop removes exactly the entries of the given URLs; every other entry keeps its asset |
| Player.AudioPlayer.RemoveItem | AudioPlayer/AudioPlayer/player/extensions/AudioPlayer+Queue.swift:91-98 | without a queue, nothing; otherwise every sound URL of the item at the index is evicted, other entries are unchanged, and the item is removed from the queue |
| Preload.AssetHasFailed | AudioPlayer/AudioPlayer/player/extensions/AudioPlayer+Preload.swift:79-88 | true iff some preload key ("tracks", "playable") failed, was cancelled or carries an error |
| Preload.AssetPreloadKeysAreLoaded | AudioPlayer/AudioPlayer/player/extensions/AudioPlayer+Preload.swift:90-100 | true iff every preload key loaded without an error |
| Preload.LoadedIsNotFailed | AudioPlayer/AudioPlayer/player/extensions/AudioPlayer+Preload.swift:79-100 | an asset whose keys all loaded has not failed |
| Preload.LoadingIsNeitherFailedNorLoaded | AudioPlayer/AudioPlayer/player/extensions/AudioPlayer+Preload.swift:79-100 | the converse fails: an asset still loading, or never asked, is neither failed nor loaded |
| Preload.Asset.constructor | AudioPlayer/AudioPlayer/player/extensions/AudioPlayer+Preload.swift:27 | a new asset for the URL has loaded nothing |
| Player.AudioPlayer.ClearAssetCache | AudioPlayer/AudioPlayer/player/extensions/AudioPlayer+Preload.swift:16-18 | the cache is empty |
| Player.AudioPlayer.GetAVURLAsset | AudioPlayer/AudioPlayer/player/extensions/AudioPlayer+Preload.swift:20-31 | a cached asset with no failed key is returned with the cache unchanged; otherwise a fresh asset is returned and replaces the entry for the URL |
| Player.AudioPlayer.PreloadItemAsset | AudioPlayer/AudioPlayer/player/extensions/AudioPlayer+Preload.swift:46-47 | asks the engine to load the asset's preload keys |
| Player.AudioPlayer.PreloadItemAssetCompleted | AudioPlayer/AudioPlayer/player/extensions/AudioPlayer+Preload.swift:47-54 | none iff not all keys loaded, and then the asset's URL is evicted; otherwise the asset, with the cache unchanged |
| Player.PreloadTarget | AudioPlayer/AudioPlayer/player/extensions/AudioPlayer+Preload.swift:58-63 | some iff there is a queue with a next item; then the highest-quality URL of the item at the cursor in the given order |
| Player.AudioPlayer.PreloadNextItemAsset | AudioPlayer/AudioPlayer/player/extensions/AudioPlayer+Preload.swift:57-77 | a no-op without a target or when the target URL is cached; otherwise a fresh asset is cached at the target URL, its keys are requested, and no other entry changes |
| Player.ShuffledPreloadMissesNextItem | AudioPlayer/AudioPlayer/player/extensions/AudioPlayer+Preload.swift:58-63 | after playing [a, b] from b with play order [b, a], a plays next but preload-ahead targets b's URL, which is not a's |
| Player.CacheReuseScenario | AudioPlayer/AudioPlayer/player/extensions/AudioPlayer+Preload.swift:20-31 | an asset that is still loading is reused; once a key has failed it is replaced in the cache |
| RemoteControl.GetMPRemoteCommands | AudioPlayer/AudioPlayer/player/extensions/AudioPlayer+RemoteControl.swift:199-247 | play/pause registers exactly toggle, play and pause; every other command registers at most one; none exactly for playback position before 9.1 and for repeat or shuffle before 10 |
| RemoteControl.MappingIsInjective | AudioPlayer/AudioPlayer/player/extensions/AudioPlayer+RemoteControl.swift:199-247 | no platform command is registered for two different player commands |
| RemoteControl.RemoteDispatch | AudioPlayer/AudioPlayer/player/extensions/AudioPlayer+RemoteControl.swift:93-144 | without an engine item: exactly no action with "no actionable item" from 9.1 and "failed" before; a failed status never comes with an action |
| RemoteControl.DispatchSucceedsOnRecognised | AudioPlayer/AudioPlayer/player/extensions/AudioPlayer+RemoteControl.swift:104-143 | with an engine item, success iff the command is recognised or toggles a playing or paused player; everything else fails and does nothing |
| RemoteControl.ToggleFollowsState | AudioPlayer/AudioPlayer/player/extensions/AudioPlayer+RemoteControl.swift:112-117 | toggling pauses a playing player, resumes a paused one, and fails in any other state |
| RemoteControl.SkipsAreOpposite | AudioPlayer/AudioPlayer/player/extensions/AudioPlayer+RemoteControl.swift:122-129 | skip backward seeks by minus the interval and skip forward by the interval; the two cancel out |
| RemoteControl.RegisteredCommandsDispatch | AudioPlayer/AudioPlayer/player/extensions/AudioPlayer+RemoteControl.swift:146-149 | a registered command succeeds iff it does not come from rating, like, dislike or bookmark (a toggle only while playing or paused) |
| RemoteControl.RepeatModeFor | AudioPlayer/AudioPlayer/player/extensions/AudioPlayer+RemoteControl.swift:174-184 | one maps to repeat, all to repeat-all, off and anything else to no flag; never shuffle |
| RemoteControl.WithRepeatMode | AudioPlayer/AudioPlayer/player/extensions/AudioPlayer+RemoteControl.swift:185 | the shuffle flag is kept exactly, and the other flags become exactly the new repeat flags |
| RemoteControl.WithShuffleMode | AudioPlayer/AudioPlayer/player/extensions/AudioPlayer+RemoteControl.swift:192-196 | shuffle is set iff the type is not off; the repeat flags are kept exactly |
| RemoteControl.ModeEditsCommute | AudioPlayer/AudioPlayer/player/extensions/AudioPlayer+RemoteControl.swift:170-197 | a repeat change and a shuffle change give the same mode in either order |
| RemoteControl.ModeEditsAreIdempotent | AudioPlayer/AudioPlayer/player/extensions/AudioPlayer+RemoteControl.swift:170-197 | applying the same repeat or shuffle change twice is applying it once |
| RemoteControl.RepeatChangeLeavesOneRepeatFlag | AudioPlayer/AudioPlayer/player/extensions/AudioPlayer+RemoteControl.swift:174-185 | after a repeat change the mode never holds both repeat and repeat-all |
| Player.AudioPlayer.HandleRemoteControlCommandEvent | AudioPlayer/AudioPlayer/player/extensions/AudioPlayer+RemoteControl.swift:93-144 | the status is `RemoteDispatch`'s; the call it names is made; the rate or the mode changes as it says; nothing else changes |
| Player.AudioPlayer.HandleChangePlaybackPositionEvent | AudioPlayer/AudioPlayer/player/extensions/AudioPlayer+RemoteControl.swift:152-157 | a position event seeks to its time; any other event does nothing |
| Player.AudioPlayer.HandleRemoteControlSeekEvent | AudioPlayer/AudioPlayer/player/extensions/AudioPlayer+RemoteControl.swift:159-168 | a seek event starts or ends seeking in the given direction; any other event does nothing |
| Player.AudioPlayer.HandleChangeRepeatModeEvent | AudioPlayer/AudioPlayer/player/extensions/AudioPlayer+RemoteControl.swift:170-186 | a repeat event sets the mode to `WithRepeatMode`; any other event leaves it |
| Player.AudioPlayer.HandleChangeShuffleModeEvent | AudioPlayer/AudioPlayer/player/extensions/AudioPlayer+RemoteControl.swift:188-197 | a shuffle event sets the mode to `WithShuffleMode`; any other event leaves it |

## Left out

- `AudioItemQueue` is not part of this model. The queue is abstracted: `nextItem()` hands out `playOrder[nextPosition]`; `hasNextItem` is `nextPosition < |playOrder|` and `hasPreviousItem` is `nextPosition > 1` (the normal-mode readings); `add` appends to both orders; `remove(at:)` drops `playOrder[index]`, the first equal item of `items`, and moves a later cursor back. The repeat modes' effect on `nextItem()` is not modelled.
- The shuffle permutation is random in the source. Here it is the input `shuffled`, required to be a permutation of the items only when the mode has the shuffle flag.
- `AudioItem` is not part of this model. An item is an identity plus at least one sound URL by quality. `HighestQualityURL` prefers high, then medium, then low.
- The `state`, `currentItem`, `rate` and `mode` setters have side effects that are not shown. Here they are plain assignments. `play` records setting the current item as one `CurrentItemSet` call.
- `stop()`, `pause()`, `resume()`, `next()`, `previous()`, `nextOrStop()`, `retryOrPlayNext()`, `seek`, `playImmediately()`, the delegate, background tasks and audio-session activation are recorded as calls, not executed.
- Player.AudioPlayer.HandlePlayerEvent: `preloadNextItemAsset()` inside the likely-to-keep-up branch is recorded as a call, not run, so that branch's contract does not describe the cache change; `PreloadNextItemAsset` models that operation on its own.
- The progress percentage (floating-point division) in the progressed branch is left out; the delegate hears only the progression time.
- `Double.isNormal` of the loaded-ahead duration is an input flag; `CMTime` conversions are folded into optional reals.
- `state.isPlaying`, `state.isPaused` and `state.isBuffering` are not shown; they are read as equality with `playing`, `paused` and `buffering`.
- The Reachability library is not part of this model. Its "no connection" (`.none`, which the producer compares with) and "unavailable" (`.unavailable`, which the connection-lost test drives) values are one `NoConnection` value. In library versions where the two are distinct cases, the producer would report a change to `.unavailable` as a network change, so `Network.LostScenario` rests on this merge. `NSDate` timestamps are a `now` parameter. Notification-centre subscription and the notifier are reduced to the `listening` flag. `deinit` is left out.
- The preload completion's weak reference to the player is left out: the completion always finds the player.
- The asset's key-loading callback is not modelled as a callback. The engine's report is `Asset.Report`, and the completion is the method `PreloadItemAssetCompleted`.
- Remote-command registration, enabling, the skip-interval and supported-rate setters, and the command-center singleton are platform plumbing. Command identity is a datatype, and a platform-version check is a `PlatformLevel` input.
- The player's queue is held as a value. In the source it is a shared reference; nothing else in the core aliases it.
- Events are handled one at a time. Cross-thread delivery order is left out.
- Player.AudioPlayer.HandlePlayerEvent: the handlers require the player's fields to be consistent on entry (failed has an error, buffering remembers its prior state, waiting remembers what it was doing). The state setters that establish this elsewhere are not shown. `PlayerEvents.Transition` itself is total and preserves consistency.
- The producer's `eventListener` is a weak reference. The model always delivers events to the listener, so events are never dropped because a listener is gone.
- The quality adjuster is not part of this model. Only its `interruptionCount` is kept; any reaction to the increments is left out.
