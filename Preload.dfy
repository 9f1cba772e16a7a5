/** Engine assets and the two checks the asset cache makes on them. */
module Preload {
  import opened Common

  /** The per-key load status the media engine reports for an asset. */
  datatype KeyStatus = StatusUnknown | StatusLoading | StatusLoaded | StatusFailed | StatusCancelled

  /** A key's status and whether the engine reports an error with it. */
  datatype KeyState = KeyState(status: KeyStatus, hasError: bool)

  /** The keys the player asks the engine to load before playing an asset. */
  const PreloadKeys: seq<string> := ["tracks", "playable"]

  /** A key that has not been asked about is unknown, without an error. */
  function StateIn(states: map<string, KeyState>, key: string): KeyState {
    if key in states then states[key] else KeyState(StatusUnknown, false)
  }

  /** A key counts as failed when its load failed or was cancelled, or when it
      carries an error; a key still loading has not failed. */
  predicate KeyFailed(s: KeyState) {
    s.status == StatusFailed || s.status == StatusCancelled || s.hasError
  }

  /** A key counts as loaded when it loaded without an error. */
  predicate KeyLoaded(s: KeyState) {
    s.status == StatusLoaded && !s.hasError
  }

  /** Some preload key has failed. */
  predicate AnyKeyFailed(states: map<string, KeyState>) {
    exists j :: 0 <= j < |PreloadKeys| && KeyFailed(StateIn(states, PreloadKeys[j]))
  }

  /** Every preload key has loaded. */
  predicate AllKeysLoaded(states: map<string, KeyState>) {
    forall j :: 0 <= j < |PreloadKeys| ==> KeyLoaded(StateIn(states, PreloadKeys[j]))
  }

  /** An engine asset for one URL. The engine loads its keys asynchronously
      and reports their states here. */
  class Asset {
    const url: Url
    var keyStates: map<string, KeyState>

    /** A fresh asset has not loaded anything yet. */
    constructor (url: Url)
      ensures this.url == url && keyStates == map[]
    {
      this.url := url;
      keyStates := map[];
    }

    /** The engine reports a new state for a key. */
    method Report(key: string, s: KeyState)
      modifies this
      ensures keyStates == old(keyStates)[key := s]
    {
      keyStates := keyStates[key := s];
    }
  }

  /** The cache's failure test: true as soon as one preload key has failed. */
  method AssetHasFailed(asset: Asset) returns (failed: bool)
    ensures failed <==> AnyKeyFailed(asset.keyStates)
  {
    var i := 0;
    while i < |PreloadKeys|
      invariant 0 <= i <= |PreloadKeys|
      invariant forall j :: 0 <= j < i ==> !KeyFailed(StateIn(asset.keyStates, PreloadKeys[j]))
    {
      var s := StateIn(asset.keyStates, PreloadKeys[i]);
      if s.status == StatusFailed || s.status == StatusCancelled || s.hasError {
        return true;
      }
      i := i + 1;
    }
    return false;
  }

  /** The preload completion test: true only when every preload key loaded. */
  method AssetPreloadKeysAreLoaded(asset: Asset) returns (loaded: bool)
    ensures loaded <==> AllKeysLoaded(asset.keyStates)
  {
    var i := 0;
    while i < |PreloadKeys|
      invariant 0 <= i <= |PreloadKeys|
      invariant forall j :: 0 <= j < i ==> KeyLoaded(StateIn(asset.keyStates, PreloadKeys[j]))
    {
      var s := StateIn(asset.keyStates, PreloadKeys[i]);
      if s.status != StatusLoaded || s.hasError {
        return false;
      }
      i := i + 1;
    }
    return true;
  }

  /** An asset whose keys all loaded has not failed. */
  lemma LoadedIsNotFailed(states: map<string, KeyState>)
    requires AllKeysLoaded(states)
    ensures !AnyKeyFailed(states)
  {
    forall j | 0 <= j < |PreloadKeys|
      ensures !KeyFailed(StateIn(states, PreloadKeys[j]))
    {
      assert KeyLoaded(StateIn(states, PreloadKeys[j]));
    }
  }

  /** The converse does not hold: an asset still loading (or never asked) is
      neither failed nor loaded, so the cache keeps it while a preload
      completion would still drop it. */
  lemma LoadingIsNeitherFailedNorLoaded()
    ensures var states := map["tracks" := KeyState(StatusLoading, false)];
            !AnyKeyFailed(states) && !AllKeysLoaded(states)
    ensures !AnyKeyFailed(map[]) && !AllKeysLoaded(map[])
  {
    var states := map["tracks" := KeyState(StatusLoading, false)];
    assert StateIn(states, PreloadKeys[0]).status == StatusLoading;
    assert StateIn(map[], PreloadKeys[0]).status == StatusUnknown;
  }
}
