/** Types shared by the playback state machine, the item queue, the asset
    cache and the remote-control bridge of the audio player. */
module Common {

  datatype Option<T> = None | Some(value: T)

  /** Items of an optional value, as a sequence of length 0 or 1. */
  function ToSeq<T>(o: Option<T>): (s: seq<T>)
    ensures o.None? ==> s == []
    ensures o.Some? ==> s == [o.value]
  {
    match o
    case None => []
    case Some(v) => [v]
  }

  type Url = string

  /** Identity of a seek completion closure. */
  type Handler = nat

  /** One entry of an AVMetadataItem list, kept opaque. */
  type Metadata = string

  /** The quality tiers an item offers a sound URL for. */
  datatype AudioQuality = Low | Medium | High

  /** An audio item: its identity and its sound URLs keyed by quality. Items
      compare by identity in the player; `id` stands for that identity. */
  datatype AudioItem = AudioItem(id: nat, soundURLs: map<AudioQuality, Url>)

  /** An item can only be created with at least one sound URL. */
  type Item = it: AudioItem | |it.soundURLs| > 0 witness AudioItem(0, map[Low := "item"])

  /** The URL of the best quality the item offers. */
  function HighestQualityURL(it: Item): (u: Url)
    ensures u in it.soundURLs.Values
    ensures High in it.soundURLs ==> u == it.soundURLs[High]
    ensures High !in it.soundURLs && Medium in it.soundURLs ==> u == it.soundURLs[Medium]
  {
    if High in it.soundURLs then it.soundURLs[High]
    else if Medium in it.soundURLs then it.soundURLs[Medium]
    else
      var q :| q in it.soundURLs;
      assert q == Low;
      it.soundURLs[Low]
  }

  /** The playback states of the player. */
  datatype AudioPlayerState =
    | Stopped
    | Playing
    | Paused
    | Buffering
    | WaitingForConnection
    | Failed

  /** Errors the media engine reports when an item ends. `URLError` carries a
      Foundation URL error code; `ItemEndedEarly` is the player's own
      EndedError case; anything else is `OtherError`. */
  datatype PlaybackError =
    | URLError(code: int)
    | ItemEndedEarly
    | OtherError(id: nat)

  /** Foundation's URLError.Code.notConnectedToInternet. */
  const NotConnectedToInternet: int := -1009
  /** Foundation's URLError.Code.networkConnectionLost. */
  const NetworkConnectionLost: int := -1005

  /** The error the player keeps once it has failed. */
  datatype AudioPlayerError = FoundationError(error: PlaybackError)

  /** Calls the modelled code makes into code that is not part of this model
      (the player's control surface, the media engine, the delegate, the retry
      producer, the platform), recorded in order. */
  datatype Effect =
    | PauseCall
    | ResumeCall
    | StopCall
    | NextCall
    | PreviousCall
    | NextOrStopCall
    | RetryOrPlayNextCall
    | PlayImmediatelyCall
    | SeekCall(time: real, toleranceBefore: real, toleranceAfter: real, completion: Option<Handler>)
    | SeekToTimeCall(time: real)
    | SeekToRelativeTimeCall(delta: real)
    | SeekingStartCall(forward: bool)
    | SeekingEndCall(forward: bool)
    | SetEngineRate(rate: real)
    | PreloadNextItemAssetCall
    | StopRetryProducerCall
    | BeginBackgroundTaskCall
    | EndBackgroundTaskCall
    | ActivateAudioSessionCall
    | UpdateNowPlayingInfoCall
    | ParseMetadataCall(item: Item, metadata: seq<Metadata>)
    | NotifyFinishedPlaying(item: Item)
    | NotifyDuration(duration: real, item: Item)
    | NotifyMetadata(item: Item, metadata: seq<Metadata>)
    | NotifyLoadedRange(earliest: real, latest: real, item: Item)
    | NotifyProgression(time: real)
    | CurrentItemSet(newItem: Option<Item>)
    | LoadAssetKeysCall(url: Url)
}
