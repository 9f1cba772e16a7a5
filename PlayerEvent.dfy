/** The player-event transition table: how the player's state fields react to
    each event the media engine's event producer reports. */
module PlayerEvents {
  import opened Common

  /** True exactly for the two URL error codes that mean the network is gone. */
  function IsInternetConnectionError(error: Option<PlaybackError>): (r: bool)
    ensures r <==> (error == Some(URLError(NotConnectedToInternet))
                    || error == Some(URLError(NetworkConnectionLost)))
    ensures r ==> error.Some? && error.value.URLError?
  {
    match error
    case Some(URLError(code)) => code == NotConnectedToInternet || code == NetworkConnectionLost
    case _ => false
  }

  /** True exactly when the error is the player's "item ended early" error. */
  function IsEndedEarlyError(error: Option<PlaybackError>): (r: bool)
    ensures r <==> error == Some(ItemEndedEarly)
    ensures r ==> !IsInternetConnectionError(error)
  {
    error.Some? && error.value.ItemEndedEarly?
  }

  /** The buffering policies of the player. */
  datatype BufferingStrategy =
    | DefaultBuffering
    | PlayWhenPreferredBufferDurationFull
    | PlayWhenBufferNotEmpty

  /** A media-engine time interval: its value and whether the floating-point
      value is a normal number (not zero, subnormal, infinite or NaN). */
  datatype Interval = Interval(seconds: real, isNormal: bool)

  datatype TimeRange = TimeRange(earliest: real, latest: real)

  /** What the player reads of its media engine: the rate it reports and
      whether its current item is ready to play. */
  datatype Engine = Engine(rate: real, itemReady: bool)

  /** The events of the player-event producer. A time that has no finite
      interval value is `None`. */
  datatype PlayerEvent =
    | EndedPlaying(error: Option<PlaybackError>)
    | InterruptionBegan
    | InterruptionEnded(shouldResume: bool)
    | LoadedDuration(duration: Option<real>)
    | LoadedMetadata(metadata: seq<Metadata>)
    | LoadedMoreRange(earliest: real, latest: real)
    | Progressed(time: Option<real>)
    | ReadyToPlay
    | PlaybackLikelyToKeepUp
    | RouteChanged
    | SessionMessedUp
    | StartedBuffering

  /** Everything the handler reads that other parts of the player compute:
      connectivity, the current item's kind, the resume policy, the quality
      adjuster's flag, the media engine (absent when there is no engine), the
      current item's loaded range and loaded-ahead duration, and whether the
      build targets iOS or tvOS. */
  datatype Environment = Environment(
    isOnline: bool,
    currentItemIsOffline: bool,
    shouldResumePlaying: bool,
    qualityIsBeingChanged: bool,
    engine: Option<Engine>,
    loadedRange: Option<TimeRange>,
    loadedAhead: Option<Interval>,
    mobileOS: bool)

  /** The player's configuration read by the handler. */
  datatype Config = Config(
    rate: real,
    resumeAfterInterruption: bool,
    bufferingStrategy: BufferingStrategy,
    preferredBufferDurationBeforePlayback: real)

  /** The fields the handler writes. `interruptionCount` is the quality
      adjuster's interruption counter. */
  datatype Machine = Machine(
    state: AudioPlayerState,
    stateBeforeBuffering: Option<AudioPlayerState>,
    stateWhenConnectionLost: Option<AudioPlayerState>,
    queuedSeek: real,
    queuedSeekCompletionHandler: Option<Handler>,
    pausedForInterruption: bool,
    failedError: Option<AudioPlayerError>,
    interruptionCount: nat)

  /** The new fields and the calls made, in order. */
  datatype Step = Step(machine: Machine, effects: seq<Effect>)

  /** The consistency the handler keeps: a failed player holds its error, a
      buffering player remembers the state to return to, and a player waiting
      for the network remembers what it was doing. */
  predicate Consistent(m: Machine) {
    && (m.state == Failed ==> m.failedError.Some?)
    && (m.state == Buffering ==> m.stateBeforeBuffering.Some?)
    && (m.state == WaitingForConnection ==>
          m.stateWhenConnectionLost.Some? || m.stateBeforeBuffering.Some?)
  }

  /** The calls that set the engine rate, when there is an engine. */
  function SetRate(env: Environment, rate: real): seq<Effect> {
    if env.engine.Some? then [SetEngineRate(rate)] else []
  }

  /** Whether `loadedMoreRange` starts playback at once. */
  predicate ShouldPlayImmediately(m: Machine, cfg: Config, env: Environment) {
    && cfg.bufferingStrategy == PlayWhenPreferredBufferDurationFull
    && (m.state == Buffering || m.state == Playing)
    && env.loadedAhead.Some?
    && env.loadedAhead.value.isNormal
    && env.loadedAhead.value.seconds >= cfg.preferredBufferDurationBeforePlayback
  }

  /** The outcome of one player event. */
  function Transition(m: Machine, cfg: Config, env: Environment, current: Option<Item>,
                      event: PlayerEvent): (r: Step)
    ensures Consistent(m) ==> Consistent(r.machine)
    ensures r.machine.interruptionCount == m.interruptionCount
         || r.machine.interruptionCount == m.interruptionCount + 1
    ensures (event.InterruptionBegan? || event.InterruptionEnded? || event.LoadedDuration?
             || event.LoadedMetadata? || event.LoadedMoreRange? || event.ReadyToPlay?)
            ==> r.machine.state == m.state
  {
    match event
    case EndedPlaying(error) =>
      if !env.currentItemIsOffline
         && (IsInternetConnectionError(error) || (!env.isOnline && IsEndedEarlyError(error))) then
        Step(m.(stateWhenConnectionLost := Some(Playing), state := WaitingForConnection), [])
      else if error.Some? && !IsEndedEarlyError(error) then
        Step(m.(state := Failed, failedError := Some(FoundationError(error.value)),
                queuedSeek := 0.0, queuedSeekCompletionHandler := None), [])
      else
        Step(m, (if current.Some? then [NotifyFinishedPlaying(current.value)] else []) + [NextOrStopCall])

    case InterruptionBegan =>
      if m.state == Playing || m.state == Buffering then
        Step(m.(pausedForInterruption := true), [BeginBackgroundTaskCall, PauseCall])
      else
        Step(m, [])

    case InterruptionEnded(shouldResume) =>
      if m.pausedForInterruption then
        Step(m.(pausedForInterruption := false),
             (if cfg.resumeAfterInterruption && shouldResume then [ResumeCall] else [])
             + [EndBackgroundTaskCall])
      else
        Step(m, [])

    case LoadedDuration(duration) =>
      if current.Some? && duration.Some? then
        Step(m, [UpdateNowPlayingInfoCall, NotifyDuration(duration.value, current.value)])
      else
        Step(m, [])

    case LoadedMetadata(metadata) =>
      if current.Some? && metadata != [] then
        Step(m, [ParseMetadataCall(current.value, metadata), NotifyMetadata(current.value, metadata)])
      else
        Step(m, [])

    case LoadedMoreRange(_, _) =>
      if current.Some? && env.loadedRange.Some? then
        Step(m, [NotifyLoadedRange(env.loadedRange.value.earliest, env.loadedRange.value.latest, current.value)]
                + (if ShouldPlayImmediately(m, cfg, env) then [PlayImmediatelyCall] else []))
      else
        Step(m, [])

    case Progressed(time) =>
      if time.Some? && env.engine.Some? && env.engine.value.itemReady then
        var fixedUp :=
          if m.state == Buffering || m.state == Paused then
            if env.shouldResumePlaying then
              Step(m.(stateBeforeBuffering := None, state := Playing), [SetEngineRate(cfg.rate)])
            else
              Step(m.(state := Paused), [SetEngineRate(0.0)])
          else
            Step(m, []);
        Step(fixedUp.machine, fixedUp.effects + [NotifyProgression(time.value)])
      else
        Step(m, [])

    case ReadyToPlay =>
      if m.queuedSeek > 0.0 then
        Step(m.(queuedSeek := 0.0, queuedSeekCompletionHandler := None),
             [SeekCall(m.queuedSeek, 0.0, 0.0, m.queuedSeekCompletionHandler)])
      else
        Step(m, [])

    case PlaybackLikelyToKeepUp =>
      var settled :=
        if env.shouldResumePlaying then
          Step(m.(stateBeforeBuffering := None, state := Playing), SetRate(env, cfg.rate))
        else
          Step(m.(state := Paused), SetRate(env, 0.0));
      Step(settled.machine, settled.effects + [PreloadNextItemAssetCall, StopRetryProducerCall])

    case RouteChanged =>
      if env.engine.Some? && env.engine.value.rate == 0.0 then
        Step(m.(state := Paused), [])
      else
        Step(m, [])

    case SessionMessedUp =>
      if env.mobileOS then
        Step(m.(state := Stopped, interruptionCount := m.interruptionCount + 1),
             [ActivateAudioSessionCall, RetryOrPlayNextCall])
      else
        Step(m, [])

    case StartedBuffering =>
      var count :=
        if m.state == Playing && !env.qualityIsBeingChanged then m.interruptionCount + 1
        else m.interruptionCount;
      Step(m.(interruptionCount := count,
              stateBeforeBuffering := Some(m.state),
              state := if env.isOnline || env.currentItemIsOffline then Buffering else WaitingForConnection),
           [])
  }

  // ---------------------------------------------------------------------
  // Properties of single events

  /** An online item that ends on a network error, or ends early while the
      device is offline, waits for the connection and will resume playing. */
  lemma EndedPlayingWaitsForConnection(m: Machine, cfg: Config, env: Environment,
                                       current: Option<Item>, error: Option<PlaybackError>)
    requires !env.currentItemIsOffline
    requires IsInternetConnectionError(error) || (!env.isOnline && error == Some(ItemEndedEarly))
    ensures var r := Transition(m, cfg, env, current, EndedPlaying(error));
            && r.machine == m.(state := WaitingForConnection, stateWhenConnectionLost := Some(Playing))
            && r.effects == []
  {
  }

  /** Any other error that is not "ended early" fails the player, keeps the
      error and drops the queued seek. */
  lemma EndedPlayingFails(m: Machine, cfg: Config, env: Environment,
                          current: Option<Item>, error: PlaybackError)
    requires error != ItemEndedEarly
    requires env.currentItemIsOffline || !IsInternetConnectionError(Some(error))
    ensures var r := Transition(m, cfg, env, current, EndedPlaying(Some(error)));
            && r.machine.state == Failed
            && r.machine.failedError == Some(FoundationError(error))
            && r.machine.queuedSeek == 0.0
            && r.machine.queuedSeekCompletionHandler == None
            && r.effects == []
  {
  }

  /** Without an error (or with "ended early" while online, or for an offline
      item) the delegate hears that the item finished and the player moves on. */
  lemma EndedPlayingFinishes(m: Machine, cfg: Config, env: Environment,
                             current: Option<Item>, error: Option<PlaybackError>)
    requires error == None || (error == Some(ItemEndedEarly) && (env.isOnline || env.currentItemIsOffline))
    ensures var r := Transition(m, cfg, env, current, EndedPlaying(error));
            && r.machine == m
            && r.effects == ToSeq(if current.Some? then Some(NotifyFinishedPlaying(current.value)) else None)
                            + [NextOrStopCall]
  {
  }

  /** The error taxonomy of the player: no error, a transient network error,
      an early end, or an unrecoverable error. */
  datatype ErrorClass = NoError | TransientNetwork | EarlyTermination | Unrecoverable

  function ErrorClassOf(error: Option<PlaybackError>): ErrorClass {
    match error
    case None => NoError
    case Some(ItemEndedEarly) => EarlyTermination
    case Some(URLError(code)) =>
      if code == NotConnectedToInternet || code == NetworkConnectionLost then TransientNetwork
      else Unrecoverable
    case Some(OtherError(_)) => Unrecoverable
  }

  /** How `endedPlaying` resolves each error class: a network error waits for
      the connection only for an online item (an offline item fails on it),
      an early end waits only while offline and otherwise counts as finished,
      and every other error fails. */
  lemma EndedPlayingByErrorClass(m: Machine, cfg: Config, env: Environment,
                                 current: Option<Item>, error: Option<PlaybackError>)
    ensures var s := Transition(m, cfg, env, current, EndedPlaying(error)).machine.state;
            match ErrorClassOf(error)
            case NoError => s == m.state
            case TransientNetwork =>
              (if env.currentItemIsOffline then s == Failed else s == WaitingForConnection)
            case EarlyTermination =>
              (if !env.currentItemIsOffline && !env.isOnline then s == WaitingForConnection else s == m.state)
            case Unrecoverable => s == Failed
  {
  }

  /** An interruption pauses the player only while it plays or buffers. */
  lemma InterruptionBeganPauses(m: Machine, cfg: Config, env: Environment, current: Option<Item>)
    ensures var r := Transition(m, cfg, env, current, InterruptionBegan);
            if m.state == Playing || m.state == Buffering then
              r.machine == m.(pausedForInterruption := true)
              && r.effects == [BeginBackgroundTaskCall, PauseCall]
            else
              r == Step(m, [])
  {
  }

  /** The end of an interruption matters only after a pause for it; it resumes
      exactly when both the policy and the system allow it, and always clears
      the flag. */
  lemma InterruptionEndedResumes(m: Machine, cfg: Config, env: Environment,
                                 current: Option<Item>, shouldResume: bool)
    ensures var r := Transition(m, cfg, env, current, InterruptionEnded(shouldResume));
            && !r.machine.pausedForInterruption
            && (m.pausedForInterruption ==>
                  (ResumeCall in r.effects <==> cfg.resumeAfterInterruption && shouldResume)
                  && r.effects[|r.effects| - 1] == EndBackgroundTaskCall)
            && (!m.pausedForInterruption ==> r == Step(m, []))
  {
  }

  /** A pending seek is performed once, exactly (zero tolerances), and then
      forgotten; with no pending seek nothing happens. */
  lemma ReadyToPlayPerformsQueuedSeek(m: Machine, cfg: Config, env: Environment, current: Option<Item>)
    ensures var r := Transition(m, cfg, env, current, ReadyToPlay);
            if m.queuedSeek > 0.0 then
              r.effects == [SeekCall(m.queuedSeek, 0.0, 0.0, m.queuedSeekCompletionHandler)]
              && r.machine == m.(queuedSeek := 0.0, queuedSeekCompletionHandler := None)
            else
              r == Step(m, [])
  {
  }

  /** Healthy buffering settles the player in `playing` (at the configured
      rate) or `paused` (rate 0), then asks for the next item's preload and
      stops the retry producer. */
  lemma PlaybackLikelyToKeepUpSettles(m: Machine, cfg: Config, env: Environment, current: Option<Item>)
    requires env.engine.Some?
    ensures var r := Transition(m, cfg, env, current, PlaybackLikelyToKeepUp);
            && (env.shouldResumePlaying ==>
                  r.machine == m.(state := Playing, stateBeforeBuffering := None)
                  && r.effects == [SetEngineRate(cfg.rate), PreloadNextItemAssetCall, StopRetryProducerCall])
            && (!env.shouldResumePlaying ==>
                  r.machine == m.(state := Paused)
                  && r.effects == [SetEngineRate(0.0), PreloadNextItemAssetCall, StopRetryProducerCall])
  {
  }

  /** Buffering counts an interruption exactly when it interrupts real
      playback, remembers the old state, and waits for the network when the
      item needs it and the device is offline. */
  lemma StartedBufferingRecordsInterruption(m: Machine, cfg: Config, env: Environment, current: Option<Item>)
    ensures var r := Transition(m, cfg, env, current, StartedBuffering);
            && (r.machine.interruptionCount == m.interruptionCount + 1
                <==> m.state == Playing && !env.qualityIsBeingChanged)
            && (r.machine.interruptionCount == m.interruptionCount
                <==> !(m.state == Playing && !env.qualityIsBeingChanged))
            && r.machine.stateBeforeBuffering == Some(m.state)
            && r.machine.state == (if env.isOnline || env.currentItemIsOffline then Buffering else WaitingForConnection)
            && r.effects == []
  {
  }

  /** A newly loaded range starts playback at once exactly when the strategy
      waits for a full preferred buffer, the player plays or buffers, and the
      known loaded-ahead duration is a normal number reaching the preference. */
  lemma LoadedMoreRangePlaysImmediately(m: Machine, cfg: Config, env: Environment,
                                        current: Option<Item>, earliest: real, latest: real)
    requires current.Some? && env.loadedRange.Some?
    ensures var r := Transition(m, cfg, env, current, LoadedMoreRange(earliest, latest));
            && r.machine == m
            && (PlayImmediatelyCall in r.effects <==>
                  && cfg.bufferingStrategy == PlayWhenPreferredBufferDurationFull
                  && (m.state == Buffering || m.state == Playing)
                  && env.loadedAhead.Some? && env.loadedAhead.value.isNormal
                  && env.loadedAhead.value.seconds >= cfg.preferredBufferDurationBeforePlayback)
  {
  }

  /** A progress tick on a ready item repairs a missed buffering transition:
      buffering or paused becomes playing (at the configured rate, forgetting
      the state before buffering) or paused (at rate 0) per the resume
      policy, and the progression is always reported last. */
  lemma ProgressedRepairsState(m: Machine, cfg: Config, env: Environment, current: Option<Item>, time: real)
    requires env.engine.Some? && env.engine.value.itemReady
    ensures var r := Transition(m, cfg, env, current, Progressed(Some(time)));
            && r.effects[|r.effects| - 1] == NotifyProgression(time)
            && (m.state == Buffering || m.state == Paused ==>
                  if env.shouldResumePlaying then
                    r.machine == m.(state := Playing, stateBeforeBuffering := None)
                    && r.effects == [SetEngineRate(cfg.rate), NotifyProgression(time)]
                  else
                    r.machine == m.(state := Paused)
                    && r.effects == [SetEngineRate(0.0), NotifyProgression(time)])
            && (m.state != Buffering && m.state != Paused ==> r.machine == m && r.effects == [NotifyProgression(time)])
  {
  }

  /** A route change pauses the player exactly when the engine stopped. */
  lemma RouteChangedPausesStoppedEngine(m: Machine, cfg: Config, env: Environment, current: Option<Item>)
    ensures var r := Transition(m, cfg, env, current, RouteChanged);
            && r.effects == []
            && r.machine == (if env.engine.Some? && env.engine.value.rate == 0.0 then m.(state := Paused) else m)
  {
  }

  /** On iOS and tvOS a broken audio session stops the player, counts an
      interruption and hands over to the retry policy; elsewhere it is ignored. */
  lemma SessionMessedUpRestarts(m: Machine, cfg: Config, env: Environment, current: Option<Item>)
    ensures var r := Transition(m, cfg, env, current, SessionMessedUp);
            if env.mobileOS then
              r.machine == m.(state := Stopped, interruptionCount := m.interruptionCount + 1)
              && r.effects == [ActivateAudioSessionCall, RetryOrPlayNextCall]
            else
              r == Step(m, [])
  {
  }

  // ---------------------------------------------------------------------
  // Properties of event sequences

  /** One event as the handler receives it, with what it reads of the world. */
  datatype Input = Input(env: Environment, current: Option<Item>, event: PlayerEvent)

  /** The fields after handling the inputs in order. */
  function Run(m: Machine, cfg: Config, inputs: seq<Input>): Machine
    decreases |inputs|
  {
    if inputs == [] then m
    else
      var i := inputs[0];
      Run(Transition(m, cfg, i.env, i.current, i.event).machine, cfg, inputs[1..])
  }

  /** The calls made while handling the inputs in order. */
  function RunEffects(m: Machine, cfg: Config, inputs: seq<Input>): seq<Effect>
    decreases |inputs|
  {
    if inputs == [] then []
    else
      var i := inputs[0];
      var r := Transition(m, cfg, i.env, i.current, i.event);
      r.effects + RunEffects(r.machine, cfg, inputs[1..])
  }

  /** Any sequence of events keeps the fields consistent, and the interruption
      counter grows by at most one per event and never shrinks. */
  lemma {:induction false} RunKeepsConsistency(m: Machine, cfg: Config, inputs: seq<Input>)
    requires Consistent(m)
    ensures Consistent(Run(m, cfg, inputs))
    ensures m.interruptionCount <= Run(m, cfg, inputs).interruptionCount <= m.interruptionCount + |inputs|
    decreases |inputs|
  {
    if inputs != [] {
      var i := inputs[0];
      RunKeepsConsistency(Transition(m, cfg, i.env, i.current, i.event).machine, cfg, inputs[1..]);
    }
  }

  /** An interruption during playback, ended with the system's permission,
      pauses and then resumes under the resume-after-interruption policy,
      inside one background task, and leaves the flag cleared. */
  lemma InterruptionRoundTrip(m: Machine, cfg: Config, env: Environment, current: Option<Item>)
    requires m.state == Playing && cfg.resumeAfterInterruption
    ensures var inputs := [Input(env, current, InterruptionBegan), Input(env, current, InterruptionEnded(true))];
            && RunEffects(m, cfg, inputs) == [BeginBackgroundTaskCall, PauseCall, ResumeCall, EndBackgroundTaskCall]
            && Run(m, cfg, inputs) == m.(pausedForInterruption := false)
  {
    var inputs := [Input(env, current, InterruptionBegan), Input(env, current, InterruptionEnded(true))];
    var m1 := m.(pausedForInterruption := true);
    assert inputs[1..] == [Input(env, current, InterruptionEnded(true))];
    assert Transition(m, cfg, env, current, InterruptionBegan).machine == m1;
    assert Run(m1, cfg, inputs[1..]) == m.(pausedForInterruption := false) by {
      assert inputs[1..][1..] == [];
    }
    assert RunEffects(m1, cfg, inputs[1..]) == [ResumeCall, EndBackgroundTaskCall] by {
      assert inputs[1..][1..] == [];
    }
  }
}
