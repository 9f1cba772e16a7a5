/** The remote-control bridge: which platform commands each player command
    stands for, which player action a platform command event triggers, and
    how the mode option set is edited from the remote. */
module RemoteControl {
  import opened Common
  import opened Queue

  /** The player's own command names. */
  datatype AudioPlayerRemoteCommand =
    | PlayPause | Stop | NextTrack | PreviousTrack | SkipForward | SkipBackward
    | SeekForward | SeekBackward | ChangePlaybackRate | ChangePlaybackPosition
    | Rate | Like | Dislike | Bookmark | ChangeRepeatMode | ChangeShuffleMode

  /** The platform's remote commands. */
  datatype MPCommand =
    | TogglePlayPauseCommand | PlayCommand | PauseCommand | StopCommand
    | NextTrackCommand | PreviousTrackCommand | SkipForwardCommand | SkipBackwardCommand
    | SeekForwardCommand | SeekBackwardCommand | ChangePlaybackRateCommand
    | ChangePlaybackPositionCommand | RatingCommand | LikeCommand | DislikeCommand
    | BookmarkCommand | ChangeRepeatModeCommand | ChangeShuffleModeCommand
    | EnableLanguageOptionCommand | DisableLanguageOptionCommand

  /** The OS level the code runs on, as far as availability checks go:
      before iOS/tvOS 9.1, from 9.1, or from 10. */
  datatype PlatformLevel = BeforeOS91 | OS91 | OS10

  predicate Has91(p: PlatformLevel) { p != BeforeOS91 }
  predicate Has10(p: PlatformLevel) { p == OS10 }

  /** The platform's repeat types; `RepeatTypeUnknown` stands for values the
      code does not name. */
  datatype MPRepeatType = RepeatTypeOff | RepeatTypeOne | RepeatTypeAll | RepeatTypeUnknown(raw: int)

  datatype MPShuffleType = ShuffleTypeOff | ShuffleTypeItems | ShuffleTypeCollections

  /** The data an event carries beyond its command, by the event's class;
      `NoPayload` is an event of the base class. */
  datatype CommandPayload =
    | NoPayload
    | SeekCommandEvent(beginSeeking: bool)
    | SkipIntervalEvent(interval: real)
    | PlaybackRateEvent(playbackRate: real)
    | PlaybackPositionEvent(positionTime: real)
    | RepeatModeEvent(repeatType: MPRepeatType)
    | ShuffleModeEvent(shuffleType: MPShuffleType)

  datatype RemoteCommandEvent = RemoteCommandEvent(command: MPCommand, payload: CommandPayload)

  datatype HandlerStatus = Success | NoActionableNowPlayingItem | CommandFailed

  /** What the handler does with an event. */
  datatype RemoteAction =
    | NoAction
    | Perform(call: Effect)
    | SetPlaybackRate(rate: real)
    | HandleRepeatMode(payload: CommandPayload)
    | HandleShuffleMode(payload: CommandPayload)

  datatype Dispatch = Dispatch(status: HandlerStatus, action: RemoteAction)

  // ---------------------------------------------------------------------
  // Command mapping

  /** The platform commands a player command registers. */
  function GetMPRemoteCommands(command: AudioPlayerRemoteCommand, platform: PlatformLevel): (r: seq<MPCommand>)
    ensures command == PlayPause <==> |r| == 3
    ensures command == PlayPause ==> r == [TogglePlayPauseCommand, PlayCommand, PauseCommand]
    ensures command != PlayPause ==> |r| <= 1
    ensures |r| == 0 <==>
              (command == ChangePlaybackPosition && !Has91(platform))
              || ((command == ChangeRepeatMode || command == ChangeShuffleMode) && !Has10(platform))
  {
    match command
    case PlayPause => [TogglePlayPauseCommand, PlayCommand, PauseCommand]
    case Stop => [StopCommand]
    case NextTrack => [NextTrackCommand]
    case PreviousTrack => [PreviousTrackCommand]
    case SkipForward => [SkipForwardCommand]
    case SkipBackward => [SkipBackwardCommand]
    case SeekForward => [SeekForwardCommand]
    case SeekBackward => [SeekBackwardCommand]
    case ChangePlaybackRate => [ChangePlaybackRateCommand]
    case ChangePlaybackPosition => if Has91(platform) then [ChangePlaybackPositionCommand] else []
    case ChangeRepeatMode => if Has10(platform) then [ChangeRepeatModeCommand] else []
    case ChangeShuffleMode => if Has10(platform) then [ChangeShuffleModeCommand] else []
    case Rate => [RatingCommand]
    case Like => [LikeCommand]
    case Dislike => [DislikeCommand]
    case Bookmark => [BookmarkCommand]
  }

  /** Distinct player commands register distinct platform commands. */
  lemma MappingIsInjective(a: AudioPlayerRemoteCommand, b: AudioPlayerRemoteCommand,
                           platform: PlatformLevel, c: MPCommand)
    requires c in GetMPRemoteCommands(a, platform) && c in GetMPRemoteCommands(b, platform)
    ensures a == b
  {
  }

  // ---------------------------------------------------------------------
  // Dispatch

  /** The handler's decision for one event, given the player state, whether
      the engine has a current item, and the platform level. */
  function RemoteDispatch(event: RemoteCommandEvent, state: AudioPlayerState,
                          hasEngineItem: bool, platform: PlatformLevel): (d: Dispatch)
    ensures !hasEngineItem ==>
              d == Dispatch(if Has91(platform) then NoActionableNowPlayingItem else CommandFailed, NoAction)
    ensures d.status == CommandFailed ==> d.action == NoAction
  {
    var c := event.command;
    var p := event.payload;
    if !hasEngineItem then
      Dispatch(if Has91(platform) then NoActionableNowPlayingItem else CommandFailed, NoAction)
    else if c == StopCommand then Dispatch(Success, Perform(StopCall))
    else if c == NextTrackCommand then Dispatch(Success, Perform(NextCall))
    else if c == PreviousTrackCommand then Dispatch(Success, Perform(PreviousCall))
    else if c == PauseCommand || (c == TogglePlayPauseCommand && state == Playing) then
      Dispatch(Success, Perform(PauseCall))
    else if c == PlayCommand || (c == TogglePlayPauseCommand && state == Paused) then
      Dispatch(Success, Perform(ResumeCall))
    else if c == SeekBackwardCommand then
      Dispatch(Success, if p.SeekCommandEvent? then
                          Perform(if p.beginSeeking then SeekingStartCall(false) else SeekingEndCall(false))
                        else NoAction)
    else if c == SeekForwardCommand then
      Dispatch(Success, if p.SeekCommandEvent? then
                          Perform(if p.beginSeeking then SeekingStartCall(true) else SeekingEndCall(true))
                        else NoAction)
    else if c == SkipBackwardCommand then
      Dispatch(Success, if p.SkipIntervalEvent? then Perform(SeekToRelativeTimeCall(-p.interval)) else NoAction)
    else if c == SkipForwardCommand then
      Dispatch(Success, if p.SkipIntervalEvent? then Perform(SeekToRelativeTimeCall(p.interval)) else NoAction)
    else if c == ChangePlaybackRateCommand then
      Dispatch(Success, if p.PlaybackRateEvent? then SetPlaybackRate(p.playbackRate) else NoAction)
    else if Has91(platform) && c == ChangePlaybackPositionCommand then
      Dispatch(Success, if p.PlaybackPositionEvent? then Perform(SeekToTimeCall(p.positionTime)) else NoAction)
    else if c == ChangeRepeatModeCommand then Dispatch(Success, HandleRepeatMode(p))
    else if c == ChangeShuffleModeCommand then Dispatch(Success, HandleShuffleMode(p))
    else Dispatch(CommandFailed, NoAction)
  }

  /** The commands the handler knows on a platform level. */
  predicate Recognised(c: MPCommand, platform: PlatformLevel) {
    c in {StopCommand, NextTrackCommand, PreviousTrackCommand, PauseCommand, PlayCommand,
          SeekBackwardCommand, SeekForwardCommand, SkipBackwardCommand, SkipForwardCommand,
          ChangePlaybackRateCommand, ChangeRepeatModeCommand, ChangeShuffleModeCommand}
    || (c == ChangePlaybackPositionCommand && Has91(platform))
  }

  /** With a current item, an event succeeds exactly when its command is
      recognised or it toggles a playing or paused player; everything else
      fails and does nothing. */
  lemma DispatchSucceedsOnRecognised(event: RemoteCommandEvent, state: AudioPlayerState,
                                     platform: PlatformLevel)
    ensures var d := RemoteDispatch(event, state, true, platform);
            && (d.status == Success <==>
                  Recognised(event.command, platform)
                  || (event.command == TogglePlayPauseCommand && (state == Playing || state == Paused)))
            && (d.status != Success ==> d == Dispatch(CommandFailed, NoAction))
  {
  }

  /** Toggling pauses a playing player, resumes a paused one, and fails in
      every other state. */
  lemma ToggleFollowsState(payload: CommandPayload, state: AudioPlayerState, platform: PlatformLevel)
    ensures var d := RemoteDispatch(RemoteCommandEvent(TogglePlayPauseCommand, payload), state, true, platform);
            && (state == Playing ==> d == Dispatch(Success, Perform(PauseCall)))
            && (state == Paused ==> d == Dispatch(Success, Perform(ResumeCall)))
            && (state != Playing && state != Paused ==> d == Dispatch(CommandFailed, NoAction))
  {
  }

  /** Skipping backward and forward seek by the same interval in opposite
      directions. */
  lemma SkipsAreOpposite(interval: real, state: AudioPlayerState, platform: PlatformLevel)
    ensures var back := RemoteDispatch(RemoteCommandEvent(SkipBackwardCommand, SkipIntervalEvent(interval)),
                                       state, true, platform);
            var forth := RemoteDispatch(RemoteCommandEvent(SkipForwardCommand, SkipIntervalEvent(interval)),
                                        state, true, platform);
            && back == Dispatch(Success, Perform(SeekToRelativeTimeCall(-interval)))
            && forth == Dispatch(Success, Perform(SeekToRelativeTimeCall(interval)))
            && back.action.call.delta + forth.action.call.delta == 0.0
  {
  }

  /** The rating, like, dislike and bookmark commands are registered but the
      handler fails on them; every other registered command succeeds (a
      toggle only while playing or paused). */
  lemma RegisteredCommandsDispatch(command: AudioPlayerRemoteCommand, platform: PlatformLevel,
                                   c: MPCommand, payload: CommandPayload, state: AudioPlayerState)
    requires c in GetMPRemoteCommands(command, platform)
    ensures var d := RemoteDispatch(RemoteCommandEvent(c, payload), state, true, platform);
            d.status == Success <==>
              command !in {Rate, Like, Dislike, Bookmark}
              && (c == TogglePlayPauseCommand ==> state == Playing || state == Paused)
  {
  }

  // ---------------------------------------------------------------------
  // Mode edits

  /** The repeat flags a platform repeat type stands for. */
  function RepeatModeFor(t: MPRepeatType): (r: set<ModeFlag>)
    ensures Shuffle !in r && |r| <= 1
    ensures r == {Repeat} <==> t == RepeatTypeOne
    ensures r == {RepeatAll} <==> t == RepeatTypeAll
  {
    match t
    case RepeatTypeOne => {Repeat}
    case RepeatTypeAll => {RepeatAll}
    case RepeatTypeOff => {}
    case RepeatTypeUnknown(_) => {}
  }

  /** The mode after a repeat change: the shuffle flag as it was, and exactly
      the new repeat flags. */
  function WithRepeatMode(mode: set<ModeFlag>, t: MPRepeatType): (r: set<ModeFlag>)
    ensures Shuffle in r <==> Shuffle in mode
    ensures r - {Shuffle} == RepeatModeFor(t)
  {
    if Shuffle in mode then {Shuffle} + RepeatModeFor(t) else RepeatModeFor(t)
  }

  /** The mode after a shuffle change: the repeat flags as they were, shuffle
      set unless the type is off. */
  function WithShuffleMode(mode: set<ModeFlag>, t: MPShuffleType): (r: set<ModeFlag>)
    ensures Shuffle in r <==> t != ShuffleTypeOff
    ensures r - {Shuffle} == mode - {Shuffle}
  {
    if t == ShuffleTypeOff then mode - {Shuffle} else mode + {Shuffle}
  }

  /** The mode after a repeat-mode event: events of another class leave it
      as it was. */
  function ModeAfterRepeatEvent(mode: set<ModeFlag>, payload: CommandPayload): set<ModeFlag> {
    if payload.RepeatModeEvent? then WithRepeatMode(mode, payload.repeatType) else mode
  }

  /** The mode after a shuffle-mode event: events of another class leave it
      as it was. */
  function ModeAfterShuffleEvent(mode: set<ModeFlag>, payload: CommandPayload): set<ModeFlag> {
    if payload.ShuffleModeEvent? then WithShuffleMode(mode, payload.shuffleType) else mode
  }

  /** Repeat and shuffle changes commute: either order ends with the new
      repeat flags and the new shuffle flag. */
  lemma ModeEditsCommute(mode: set<ModeFlag>, r: MPRepeatType, s: MPShuffleType)
    ensures WithShuffleMode(WithRepeatMode(mode, r), s) == WithRepeatMode(WithShuffleMode(mode, s), r)
  {
    var rep := RepeatModeFor(r);
    var shuffle := if s == ShuffleTypeOff then {} else {Shuffle};
    ModeIsSplit(WithShuffleMode(WithRepeatMode(mode, r), s), shuffle, rep);
    ModeIsSplit(WithRepeatMode(WithShuffleMode(mode, s), r), shuffle, rep);
  }

  /** A mode is determined by whether it holds the shuffle flag and by its
      other flags. */
  lemma ModeIsSplit(m: set<ModeFlag>, shuffle: set<ModeFlag>, rest: set<ModeFlag>)
    requires Shuffle !in rest && shuffle <= {Shuffle}
    requires Shuffle in m <==> Shuffle in shuffle
    requires m - {Shuffle} == rest
    ensures m == shuffle + rest
  {
    forall f | f in m ensures f in shuffle + rest {
      if f != Shuffle {
        assert f in m - {Shuffle};
      }
    }
    forall f | f in shuffle + rest ensures f in m {
      if f != Shuffle {
        assert f in m - {Shuffle};
      }
    }
  }

  /** Setting the same repeat type twice is setting it once, and so is
      setting the same shuffle type twice. */
  lemma ModeEditsAreIdempotent(mode: set<ModeFlag>, r: MPRepeatType, s: MPShuffleType)
    ensures WithRepeatMode(WithRepeatMode(mode, r), r) == WithRepeatMode(mode, r)
    ensures WithShuffleMode(WithShuffleMode(mode, s), s) == WithShuffleMode(mode, s)
  {
  }

  /** After a repeat change the mode never holds both repeat flags, whatever
      it held before. */
  lemma RepeatChangeLeavesOneRepeatFlag(mode: set<ModeFlag>, t: MPRepeatType)
    ensures !(Repeat in WithRepeatMode(mode, t) && RepeatAll in WithRepeatMode(mode, t))
  {
    assert Repeat in RepeatModeFor(t) ==> RepeatModeFor(t) == {Repeat};
  }
}
