/** The audio player object: the fields its player-event handler, queue
    control surface, asset cache and remote-control handler update in place. */
module Player {
  import opened Common
  import opened PlayerEvents
  import opened Queue
  import opened Preload
  import opened RemoteControl

  /** The URL preload-ahead targets: the highest-quality URL of the item at
      the cursor of the GIVEN order, when the queue has a next item. */
  function PreloadTarget(queue: Option<ItemQueue>): (u: Option<Url>)
    requires queue.Some? ==> Queue.Valid(queue.value)
    ensures u.Some? <==> queue.Some? && HasNextItem(queue.value)
    ensures u.Some? ==> u.value == HighestQualityURL(queue.value.items[queue.value.nextPosition])
    ensures u.Some? ==> u.value in queue.value.items[queue.value.nextPosition].soundURLs.Values
  {
    if queue.Some? && HasNextItem(queue.value) then
      var q := queue.value;
      Some(HighestQualityURL(q.items[q.nextPosition]))
    else
      None
  }

  /** The entries of `cache` whose URL is in `urls`, unchanged. */
  function CacheRestrictedTo(cache: map<Url, Asset>, urls: set<Url>): (r: map<Url, Asset>)
    ensures r.Keys == cache.Keys * urls
    ensures forall u :: u in r ==> r[u] == cache[u]
  {
    map u | u in cache && u in urls :: cache[u]
  }

  class AudioPlayer {
    // The fields the player-event handler writes.
    var state: AudioPlayerState
    var stateBeforeBuffering: Option<AudioPlayerState>
    var stateWhenConnectionLost: Option<AudioPlayerState>
    var queuedSeek: real
    var queuedSeekCompletionHandler: Option<Handler>
    var pausedForInterruption: bool
    var failedError: Option<AudioPlayerError>
    /** The quality adjuster's interruption counter. */
    var interruptionCount: nat

    // Configuration.
    var rate: real
    var resumeAfterInterruption: bool
    var bufferingStrategy: BufferingStrategy
    var preferredBufferDurationBeforePlayback: real

    /** The play mode; the empty set is the normal mode. */
    var mode: set<ModeFlag>
    var queue: Option<ItemQueue>
    var currentItem: Option<Item>
    /** The engine assets by URL, reused across items and preloaded ahead. */
    var cachedAssets: map<Url, Asset>
    /** The calls made into code outside this model, in order. */
    var calls: seq<Effect>

    /** The handler's fields as one value. */
    function Snapshot(): PlayerEvents.Machine
      reads this`state, this`stateBeforeBuffering, this`stateWhenConnectionLost, this`queuedSeek,
            this`queuedSeekCompletionHandler, this`pausedForInterruption, this`failedError,
            this`interruptionCount
    {
      PlayerEvents.Machine(state, stateBeforeBuffering, stateWhenConnectionLost, queuedSeek,
                           queuedSeekCompletionHandler, pausedForInterruption, failedError,
                           interruptionCount)
    }

    /** The configuration the handler reads. */
    function Settings(): Config
      reads this`rate, this`resumeAfterInterruption, this`bufferingStrategy,
            this`preferredBufferDurationBeforePlayback
    {
      Config(rate, resumeAfterInterruption, bufferingStrategy, preferredBufferDurationBeforePlayback)
    }

    /** The state is consistent, the queue's two orders hold the same items,
        and every cached asset is the asset for its own URL. */
    ghost predicate Valid()
      reads this`state, this`stateBeforeBuffering, this`stateWhenConnectionLost, this`queuedSeek,
            this`queuedSeekCompletionHandler, this`pausedForInterruption, this`failedError,
            this`interruptionCount, this`queue, this`cachedAssets
    {
      && Consistent(Snapshot())
      && (queue.Some? ==> Queue.Valid(queue.value))
      && (forall u :: u in cachedAssets ==> cachedAssets[u].url == u)
    }

    /** A stopped player in normal mode with no queue and an empty cache. */
    constructor (rate: real, resumeAfterInterruption: bool, bufferingStrategy: BufferingStrategy,
                 preferredBufferDurationBeforePlayback: real)
      ensures Valid()
      ensures state == Stopped && mode == {} && queue == None && currentItem == None
      ensures cachedAssets == map[] && calls == [] && interruptionCount == 0
      ensures Settings() == Config(rate, resumeAfterInterruption, bufferingStrategy,
                                   preferredBufferDurationBeforePlayback)
    {
      state := Stopped;
      stateBeforeBuffering := None;
      stateWhenConnectionLost := None;
      queuedSeek := 0.0;
      queuedSeekCompletionHandler := None;
      pausedForInterruption := false;
      failedError := None;
      interruptionCount := 0;
      this.rate := rate;
      this.resumeAfterInterruption := resumeAfterInterruption;
      this.bufferingStrategy := bufferingStrategy;
      this.preferredBufferDurationBeforePlayback := preferredBufferDurationBeforePlayback;
      mode := {};
      queue := None;
      currentItem := None;
      cachedAssets := map[];
      calls := [];
    }

    // -------------------------------------------------------------------
    // Player events

    /** `event` was handled from the state before the call: the new fields
        and the calls made are those of `Transition`. */
    twostate predicate Handled(event: PlayerEvent, env: Environment)
      reads this
    {
      var step := Transition(old(Snapshot()), Settings(), env, currentItem, event);
      Snapshot() == step.machine && calls == old(calls) + step.effects
    }

    /** Handles one player event, so every property proved of `Transition`
        holds of the player. */
    method HandlePlayerEvent(event: PlayerEvent, env: Environment)
      requires Valid()
      modifies this`state, this`stateBeforeBuffering, this`stateWhenConnectionLost, this`queuedSeek,
               this`queuedSeekCompletionHandler, this`pausedForInterruption, this`failedError,
               this`interruptionCount, this`calls
      ensures Valid()
      ensures Handled(event, env)
    {
      match event {
        case EndedPlaying(error) => HandleEndedPlaying(error, env);
        case InterruptionBegan => HandleInterruptionBegan(env);
        case InterruptionEnded(shouldResume) => HandleInterruptionEnded(shouldResume, env);
        case LoadedDuration(duration) => HandleLoadedDuration(duration, env);
        case LoadedMetadata(metadata) => HandleLoadedMetadata(metadata, env);
        case LoadedMoreRange(earliest, latest) => HandleLoadedMoreRange(earliest, latest, env);
        case Progressed(time) => HandleProgressed(time, env);
        case ReadyToPlay => HandleReadyToPlay(env);
        case PlaybackLikelyToKeepUp => HandlePlaybackLikelyToKeepUp(env);
        case RouteChanged => HandleRouteChanged(env);
        case SessionMessedUp => HandleSessionMessedUp(env);
        case StartedBuffering => HandleStartedBuffering(env);
      }
    }

    method HandleEndedPlaying(error: Option<PlaybackError>, env: Environment)
      requires Valid()
      modifies this`state, this`stateWhenConnectionLost, this`queuedSeek,
               this`queuedSeekCompletionHandler, this`failedError, this`calls
      ensures Valid()
      ensures Handled(EndedPlaying(error), env)
    {
      if !env.currentItemIsOffline
         && (IsInternetConnectionError(error) || (!env.isOnline && IsEndedEarlyError(error))) {
        stateWhenConnectionLost := Some(Playing);
        state := WaitingForConnection;
      } else if error.Some? && !IsEndedEarlyError(error) {
        state := Failed;
        failedError := Some(FoundationError(error.value));
        queuedSeek := 0.0;
        queuedSeekCompletionHandler := None;
      } else {
        if currentItem.Some? {
          calls := calls + [NotifyFinishedPlaying(currentItem.value)];
        }
        calls := calls + [NextOrStopCall];
      }
    }

    method HandleInterruptionBegan(env: Environment)
      requires Valid()
      modifies this`pausedForInterruption, this`calls
      ensures Valid()
      ensures Handled(InterruptionBegan, env)
    {
      if state == Playing || state == Buffering {
        calls := calls + [BeginBackgroundTaskCall];
        pausedForInterruption := true;
        calls := calls + [PauseCall];
      }
    }

    method HandleInterruptionEnded(shouldResume: bool, env: Environment)
      requires Valid()
      modifies this`pausedForInterruption, this`calls
      ensures Valid()
      ensures Handled(InterruptionEnded(shouldResume), env)
    {
      if pausedForInterruption {
        if resumeAfterInterruption && shouldResume {
          calls := calls + [ResumeCall];
        }
        pausedForInterruption := false;
        calls := calls + [EndBackgroundTaskCall];
      }
    }

    method HandleLoadedDuration(duration: Option<real>, env: Environment)
      requires Valid()
      modifies this`calls
      ensures Valid()
      ensures Handled(LoadedDuration(duration), env)
    {
      if currentItem.Some? && duration.Some? {
        calls := calls + [UpdateNowPlayingInfoCall, NotifyDuration(duration.value, currentItem.value)];
      }
    }

    method HandleLoadedMetadata(metadata: seq<Metadata>, env: Environment)
      requires Valid()
      modifies this`calls
      ensures Valid()
      ensures Handled(LoadedMetadata(metadata), env)
    {
      if currentItem.Some? && metadata != [] {
        calls := calls + [ParseMetadataCall(currentItem.value, metadata),
                          NotifyMetadata(currentItem.value, metadata)];
      }
    }

    method HandleLoadedMoreRange(earliest: real, latest: real, env: Environment)
      requires Valid()
      modifies this`calls
      ensures Valid()
      ensures Handled(LoadedMoreRange(earliest, latest), env)
    {
      if currentItem.Some? && env.loadedRange.Some? {
        var range := env.loadedRange.value;
        calls := calls + [NotifyLoadedRange(range.earliest, range.latest, currentItem.value)];
        if bufferingStrategy == PlayWhenPreferredBufferDurationFull
           && (state == Buffering || state == Playing)
           && env.loadedAhead.Some?
           && env.loadedAhead.value.isNormal
           && env.loadedAhead.value.seconds >= preferredBufferDurationBeforePlayback {
          calls := calls + [PlayImmediatelyCall];
        }
      }
    }

    method HandleProgressed(time: Option<real>, env: Environment)
      requires Valid()
      modifies this`state, this`stateBeforeBuffering, this`calls
      ensures Valid()
      ensures Handled(Progressed(time), env)
    {
      if time.Some? && env.engine.Some? && env.engine.value.itemReady {
        if state == Buffering || state == Paused {
          if env.shouldResumePlaying {
            stateBeforeBuffering := None;
            state := Playing;
            calls := calls + [SetEngineRate(rate)];
          } else {
            calls := calls + [SetEngineRate(0.0)];
            state := Paused;
          }
        }
        calls := calls + [NotifyProgression(time.value)];
      }
    }

    method HandleReadyToPlay(env: Environment)
      requires Valid()
      modifies this`queuedSeek, this`queuedSeekCompletionHandler, this`calls
      ensures Valid()
      ensures Handled(ReadyToPlay, env)
    {
      if queuedSeek > 0.0 {
        calls := calls + [SeekCall(queuedSeek, 0.0, 0.0, queuedSeekCompletionHandler)];
        queuedSeek := 0.0;
        queuedSeekCompletionHandler := None;
      }
    }

    method HandlePlaybackLikelyToKeepUp(env: Environment)
      requires Valid()
      modifies this`state, this`stateBeforeBuffering, this`calls
      ensures Valid()
      ensures Handled(PlaybackLikelyToKeepUp, env)
    {
      if env.shouldResumePlaying {
        stateBeforeBuffering := None;
        state := Playing;
        calls := calls + SetRate(env, rate);
      } else {
        calls := calls + SetRate(env, 0.0);
        state := Paused;
      }
      calls := calls + [PreloadNextItemAssetCall];
      calls := calls + [StopRetryProducerCall];
    }

    method HandleRouteChanged(env: Environment)
      requires Valid()
      modifies this`state
      ensures Valid()
      ensures Handled(RouteChanged, env)
    {
      if env.engine.Some? && env.engine.value.rate == 0.0 {
        state := Paused;
      }
    }

    method HandleSessionMessedUp(env: Environment)
      requires Valid()
      modifies this`state, this`interruptionCount, this`calls
      ensures Valid()
      ensures Handled(SessionMessedUp, env)
    {
      if env.mobileOS {
        calls := calls + [ActivateAudioSessionCall];
        state := Stopped;
        interruptionCount := interruptionCount + 1;
        calls := calls + [RetryOrPlayNextCall];
      }
    }

    method HandleStartedBuffering(env: Environment)
      requires Valid()
      modifies this`state, this`stateBeforeBuffering, this`interruptionCount
      ensures Valid()
      ensures Handled(StartedBuffering, env)
    {
      if state == Playing && !env.qualityIsBeingChanged {
        interruptionCount := interruptionCount + 1;
      }
      stateBeforeBuffering := Some(state);
      if env.isOnline || env.currentItemIsOffline {
        state := Buffering;
      } else {
        state := WaitingForConnection;
      }
    }

    // -------------------------------------------------------------------
    // Queue control surface

    /** The items of the queue in play order, if there is a queue. */
    function Items(): (r: Option<seq<Item>>)
      reads this
      ensures r.None? <==> queue.None?
      ensures r.Some? ==> r.value == queue.value.playOrder
    {
      if queue.Some? then Some(queue.value.playOrder) else None
    }

    /** The first index of the current item among the items in the order
        they were given, if there is a current item, a queue, and the item is
        in it. */
    function CurrentItemIndexInQueue(): (r: Option<nat>)
      reads this
      ensures r.Some? <==> currentItem.Some? && queue.Some? && currentItem.value in queue.value.items
      ensures r.Some? ==> r.value < |queue.value.items| && queue.value.items[r.value] == currentItem.value
                          && forall j :: 0 <= j < r.value ==> queue.value.items[j] != currentItem.value
    {
      if currentItem.Some? && queue.Some? then FirstIndex(queue.value.items, currentItem.value) else None
    }

    /** Whether the queue has an item after the cursor; never without a queue. */
    function HasNext(): (r: bool)
      reads this
      ensures r <==> queue.Some? && queue.value.nextPosition < |queue.value.playOrder|
    {
      queue.Some? && HasNextItem(queue.value)
    }

    /** Whether the queue has an item before the current one; never without a
        queue. */
    function HasPrevious(): (r: bool)
      reads this
      ensures r <==> queue.Some? && queue.value.nextPosition > 1
    {
      queue.Some? && HasPreviousItem(queue.value)
    }

    /** The queue set up for valid arguments of `Play`, from the state
        before: it holds `items` in the mode's play order, its cursor is just
        past the first play-order position of `items[index]`, and that item
        is the current one. */
    twostate predicate QueueStarted(items: seq<Item>, index: int, shuffled: seq<Item>)
      reads this`queue, this`currentItem, this`calls, this`mode
    {
      && 0 <= index < |items|
      && queue.Some?
      && queue.value.items == items
      && queue.value.playOrder == (if Shuffle in mode then shuffled else items)
      && 1 <= queue.value.nextPosition
      && FirstIndex(queue.value.playOrder, items[index]) == Some(queue.value.nextPosition - 1)
      && currentItem == Some(items[index])
      && calls == old(calls) + [CurrentItemSet(Some(items[index]))]
    }

    /** The outcome of `Play(items, index, shuffled)` from the state before
        the call. */
    twostate predicate PlayOutcome(items: seq<Item>, index: int, shuffled: seq<Item>)
      reads this`queue, this`currentItem, this`calls, this`mode, this`cachedAssets
    {
      if |items| == 0 || index < 0 || index >= |items| then
        && queue == None
        && calls == old(calls) + [StopCall]
        && cachedAssets == old(cachedAssets)
        && currentItem == old(currentItem)
      else
        && cachedAssets == CacheRestrictedTo(old(cachedAssets), PlaylistUrls(items))
        && QueueStarted(items, index, shuffled)
    }

    /** Plays `items` from `items[index]`. Invalid arguments stop the player
        and drop the queue. Otherwise the cache keeps only the assets of the
        new items' URLs, and a new queue (in play order `shuffled` when in
        shuffle mode) is placed so that the item it hands out first is
        `items[index]`. */
    method Play(items: seq<Item>, index: int, shuffled: seq<Item>)
      requires Valid()
      requires Shuffle in mode ==> multiset(shuffled) == multiset(items)
      modifies this`cachedAssets, this`queue, this`currentItem, this`calls
      ensures Valid()
      ensures PlayOutcome(items, index, shuffled)
    {
      if |items| == 0 || index < 0 || index >= |items| {
        calls := calls + [StopCall];
        queue := None;
        return;
      }
      KeepCachedAssets(PlaylistUrls(items));
      StartQueueAt(items, index, shuffled);
    }

    /** Sets up a new queue for `items` in the mode's play order, places the
        cursor on the first play-order position of `items[index]` and makes
        the item there current. */
    method StartQueueAt(items: seq<Item>, index: nat, shuffled: seq<Item>)
      requires Valid()
      requires index < |items|
      requires Shuffle in mode ==> multiset(shuffled) == multiset(items)
      modifies this`queue, this`currentItem, this`calls
      ensures Valid()
      ensures QueueStarted(items, index, shuffled)
    {
      var order := PlayOrder(items, shuffled, mode);
      var started := StartQueue(items, order, index);
      queue := Some(started.1);
      currentItem := started.0;
      calls := calls + [CurrentItemSet(started.0)];
    }

    /** Evicts every cached asset whose URL is not in `urls`, one URL at a
        time; the others stay as they are. An empty cache is left alone. */
    method KeepCachedAssets(urls: set<Url>)
      requires Valid()
      modifies this`cachedAssets
      ensures Valid()
      ensures cachedAssets == CacheRestrictedTo(old(cachedAssets), urls)
    {
      if |cachedAssets| == 0 {
        assert cachedAssets == map[];
        return;
      }
      var pending := cachedAssets.Keys;
      ghost var start := cachedAssets;
      while pending != {}
        invariant Valid()
        invariant pending <= start.Keys
        invariant forall u :: u in cachedAssets <==> u in start && (u in pending || u in urls)
        invariant forall u :: u in cachedAssets ==> cachedAssets[u] == start[u]
        decreases |pending|
      {
        var url :| url in pending;
        if url !in urls {
          cachedAssets := cachedAssets - {url};
        }
        pending := pending - {url};
      }
    }

    /** Appends items to the queue; without a queue, plays them from the
        first. */
    method Add(items: seq<Item>, shuffled: seq<Item>)
      requires Valid()
      requires queue.None? && Shuffle in mode ==> multiset(shuffled) == multiset(items)
      modifies this`cachedAssets, this`queue, this`currentItem, this`calls
      ensures Valid()
      ensures old(queue).Some? ==>
                && queue == Some(Append(old(queue).value, items))
                && cachedAssets == old(cachedAssets) && currentItem == old(currentItem)
                && calls == old(calls)
      ensures old(queue).None? ==> PlayOutcome(items, 0, shuffled)
    {
      if queue.Some? {
        queue := Some(Append(queue.value, items));
      } else {
        Play(items, 0, shuffled);
      }
    }

    /** Removes the item at `index` of the play order, after evicting every
        sound URL of that item from the cache; without a queue, does
        nothing. */
    method RemoveItem(index: int)
      requires Valid()
      requires queue.Some? ==> 0 <= index < |queue.value.playOrder|
      modifies this`cachedAssets, this`queue
      ensures Valid()
      ensures old(queue).None? ==> queue == None && cachedAssets == old(cachedAssets)
      ensures old(queue).Some? ==>
                var removed := old(queue).value.playOrder[index];
                && cachedAssets.Keys == old(cachedAssets).Keys - removed.soundURLs.Values
                && (forall u :: u in cachedAssets ==> cachedAssets[u] == old(cachedAssets)[u])
                && queue == Some(RemoveAt(old(queue).value, index))
    {
      if queue.Some? {
        var item := queue.value.playOrder[index];
        EvictUrls(item.soundURLs.Values);
        queue := Some(RemoveAt(queue.value, index));
      }
    }

    /** Evicts the cache entries of the given URLs, one URL at a time; the
        other entries stay as they are. */
    method EvictUrls(urls: set<Url>)
      requires Valid()
      modifies this`cachedAssets
      ensures Valid()
      ensures cachedAssets.Keys == old(cachedAssets).Keys - urls
      ensures forall u :: u in cachedAssets ==> cachedAssets[u] == old(cachedAssets)[u]
    {
      var pending := urls;
      ghost var start := cachedAssets;
      while pending != {}
        invariant Valid()
        invariant pending <= urls
        invariant cachedAssets.Keys == start.Keys - (urls - pending)
        invariant forall u :: u in cachedAssets ==> cachedAssets[u] == start[u]
        decreases |pending|
      {
        var url :| url in pending;
        cachedAssets := cachedAssets - {url};
        pending := pending - {url};
      }
    }

    // -------------------------------------------------------------------
    // Asset cache

    method ClearAssetCache()
      modifies this`cachedAssets
      ensures cachedAssets == map[]
    {
      cachedAssets := map[];
    }

    /** The asset for `url`: the cached one while none of its preload keys has
        failed, otherwise a fresh asset that replaces it in the cache. */
    method GetAVURLAsset(url: Url) returns (asset: Asset)
      requires Valid()
      modifies this`cachedAssets
      ensures Valid()
      ensures asset.url == url
      ensures url in old(cachedAssets) && !AnyKeyFailed(old(cachedAssets)[url].keyStates) ==>
                asset == old(cachedAssets)[url] && cachedAssets == old(cachedAssets)
      ensures !(url in old(cachedAssets) && !AnyKeyFailed(old(cachedAssets)[url].keyStates)) ==>
                fresh(asset) && asset.keyStates == map[] && cachedAssets == old(cachedAssets)[url := asset]
    {
      if url in cachedAssets {
        var failed := AssetHasFailed(cachedAssets[url]);
        if !failed {
          return cachedAssets[url];
        }
      }
      asset := new Asset(url);
      cachedAssets := cachedAssets[url := asset];
    }

    /** Asks the engine to load the preload keys of `asset`; the engine later
        reports back through `PreloadItemAssetCompleted`. */
    method PreloadItemAsset(asset: Asset)
      modifies this`calls
      ensures calls == old(calls) + [LoadAssetKeysCall(asset.url)]
    {
      calls := calls + [LoadAssetKeysCall(asset.url)];
    }

    /** The completion of a preload: an asset whose keys did not all load is
        evicted and reported as none; a loaded asset is handed on. */
    method PreloadItemAssetCompleted(asset: Asset) returns (result: Option<Asset>)
      requires Valid()
      modifies this`cachedAssets
      ensures Valid()
      ensures result.None? <==> !AllKeysLoaded(asset.keyStates)
      ensures result.None? ==> cachedAssets == old(cachedAssets) - {asset.url}
      ensures result.Some? ==> result.value == asset && cachedAssets == old(cachedAssets)
    {
      var loaded := AssetPreloadKeysAreLoaded(asset);
      if !loaded {
        cachedAssets := cachedAssets - {asset.url};
        return None;
      }
      return Some(asset);
    }

    /** Preloads the next item's highest-quality URL unless there is no next
        item or that URL is already cached: a fresh asset is cached for it and
        its keys are requested; no other cache entry changes. */
    method PreloadNextItemAsset()
      requires Valid()
      modifies this`cachedAssets, this`calls
      ensures Valid()
      ensures PreloadTarget(queue).None? || PreloadTarget(queue).value in old(cachedAssets) ==>
                cachedAssets == old(cachedAssets) && calls == old(calls)
      ensures PreloadTarget(queue).Some? && PreloadTarget(queue).value !in old(cachedAssets) ==>
                var url := PreloadTarget(queue).value;
                && url in cachedAssets && fresh(cachedAssets[url])
                && cachedAssets == old(cachedAssets)[url := cachedAssets[url]]
                && calls == old(calls) + [LoadAssetKeysCall(url)]
    {
      if queue.None? || !HasNext() {
        return;
      }
      var q := queue.value;
      var item := q.items[q.nextPosition];
      var url := HighestQualityURL(item);
      if url in cachedAssets {
        return;
      }
      var asset := GetAVURLAsset(url);
      PreloadItemAsset(asset);
    }

    // -------------------------------------------------------------------
    // Remote control

    /** Handles a remote command event as `RemoteDispatch` decides: the same
        status, the call it names made, the rate or the mode changed as it
        says, and nothing else. */
    method HandleRemoteControlCommandEvent(event: RemoteCommandEvent, hasEngineItem: bool,
                                           platform: PlatformLevel) returns (status: HandlerStatus)
      modifies this`calls, this`rate, this`mode
      ensures var d := RemoteDispatch(event, state, hasEngineItem, platform);
              && status == d.status
              && calls == old(calls) + (if d.action.Perform? then [d.action.call] else [])
              && rate == (if d.action.SetPlaybackRate? then d.action.rate else old(rate))
              && mode == (if d.action.HandleRepeatMode? then ModeAfterRepeatEvent(old(mode), d.action.payload)
                          else if d.action.HandleShuffleMode? then ModeAfterShuffleEvent(old(mode), d.action.payload)
                          else old(mode))
    {
      if !hasEngineItem {
        status := if Has91(platform) then NoActionableNowPlayingItem else CommandFailed;
        return;
      }
      status := Success;
      var c := event.command;
      if c == StopCommand {
        calls := calls + [StopCall];
      } else if c == NextTrackCommand {
        calls := calls + [NextCall];
      } else if c == PreviousTrackCommand {
        calls := calls + [PreviousCall];
      } else if c == PauseCommand || (c == TogglePlayPauseCommand && state == Playing) {
        calls := calls + [PauseCall];
      } else if c == PlayCommand || (c == TogglePlayPauseCommand && state == Paused) {
        calls := calls + [ResumeCall];
      } else if c == SeekBackwardCommand {
        HandleRemoteControlSeekEvent(event.payload, false);
      } else if c == SeekForwardCommand {
        HandleRemoteControlSeekEvent(event.payload, true);
      } else if c == SkipBackwardCommand {
        if event.payload.SkipIntervalEvent? {
          calls := calls + [SeekToRelativeTimeCall(-event.payload.interval)];
        }
      } else if c == SkipForwardCommand {
        if event.payload.SkipIntervalEvent? {
          calls := calls + [SeekToRelativeTimeCall(event.payload.interval)];
        }
      } else if c == ChangePlaybackRateCommand {
        if event.payload.PlaybackRateEvent? {
          rate := event.payload.playbackRate;
        }
      } else if Has91(platform) && c == ChangePlaybackPositionCommand {
        HandleChangePlaybackPositionEvent(event.payload);
      } else if c == ChangeRepeatModeCommand {
        HandleChangeRepeatModeEvent(event.payload);
      } else if c == ChangeShuffleModeCommand {
        HandleChangeShuffleModeEvent(event.payload);
      } else {
        status := CommandFailed;
      }
    }

    /** Seeks to the position a position event carries. */
    method HandleChangePlaybackPositionEvent(payload: CommandPayload)
      modifies this`calls
      ensures calls == old(calls) + (if payload.PlaybackPositionEvent? then [SeekToTimeCall(payload.positionTime)] else [])
    {
      if !payload.PlaybackPositionEvent? {
        return;
      }
      calls := calls + [SeekToTimeCall(payload.positionTime)];
    }

    /** Starts or ends seeking in the given direction, as a seek event says. */
    method HandleRemoteControlSeekEvent(payload: CommandPayload, isForward: bool)
      modifies this`calls
      ensures calls == old(calls) +
                (if !payload.SeekCommandEvent? then []
                 else if payload.beginSeeking then [SeekingStartCall(isForward)]
                 else [SeekingEndCall(isForward)])
    {
      if !payload.SeekCommandEvent? {
        return;
      }
      if payload.beginSeeking {
        calls := calls + [SeekingStartCall(isForward)];
      } else {
        calls := calls + [SeekingEndCall(isForward)];
      }
    }

    /** Sets the repeat part of the mode from a repeat event, keeping the
        shuffle flag. */
    method HandleChangeRepeatModeEvent(payload: CommandPayload)
      modifies this`mode
      ensures mode == ModeAfterRepeatEvent(old(mode), payload)
    {
      if !payload.RepeatModeEvent? {
        return;
      }
      var newRepeatMode: set<ModeFlag>;
      match payload.repeatType {
        case RepeatTypeOne => newRepeatMode := {Repeat};
        case RepeatTypeAll => newRepeatMode := {RepeatAll};
        case RepeatTypeOff => newRepeatMode := {};
        case RepeatTypeUnknown(_) => newRepeatMode := {};
      }
      mode := if Shuffle in mode then {Shuffle} + newRepeatMode else newRepeatMode;
    }

    /** Sets or clears the shuffle flag from a shuffle event. */
    method HandleChangeShuffleModeEvent(payload: CommandPayload)
      modifies this`mode
      ensures mode == ModeAfterShuffleEvent(old(mode), payload)
    {
      if !payload.ShuffleModeEvent? {
        return;
      }
      if payload.shuffleType == ShuffleTypeOff {
        mode := mode - {Shuffle};
      } else {
        mode := mode + {Shuffle};
      }
    }
  }

  // ---------------------------------------------------------------------
  // Scenarios

  /** In shuffle mode preload-ahead follows the given order while playback
      follows the play order. Playing [a, b] from b with the play order
      [b, a] (the queue `Play` builds then) hands out b and leaves a to play
      next, yet preload-ahead targets b's URL again, not a's. */
  lemma ShuffledPreloadMissesNextItem(q: ItemQueue, a: Item, b: Item)
    requires q.items == [a, b] && q.playOrder == [b, a]
    requires 1 <= q.nextPosition && FirstIndex(q.playOrder, q.items[1]) == Some(q.nextPosition - 1)
    requires a.soundURLs.Values !! b.soundURLs.Values
    ensures Queue.Valid(q)
    ensures NextItem(q).0 == Some(a)
    ensures PreloadTarget(Some(q)) == Some(HighestQualityURL(b))
    ensures HighestQualityURL(b) !in NextItem(q).0.value.soundURLs.Values
  {
    assert q.nextPosition == 1;
    assert multiset(q.playOrder) == multiset(q.items);
  }

  /** A cached asset is reused while it is loading, and replaced once one of
      its preload keys fails. */
  method CacheReuseScenario(url: Url) returns (reused: bool, replaced: bool)
    ensures reused && replaced
  {
    var player := new AudioPlayer(1.0, true, DefaultBuffering, 0.0);
    var first := player.GetAVURLAsset(url);
    first.Report("tracks", KeyState(StatusLoading, false));
    assert !AnyKeyFailed(first.keyStates) by {
      LoadingIsNeitherFailedNorLoaded();
    }
    var second := player.GetAVURLAsset(url);
    reused := second == first;
    first.Report("playable", KeyState(StatusFailed, false));
    assert KeyFailed(StateIn(first.keyStates, PreloadKeys[1]));
    var third := player.GetAVURLAsset(url);
    replaced := third != first && player.cachedAssets[url] == third;
  }
}
