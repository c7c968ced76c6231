/**
 * The CarPlay playback manager: starting a server or downloaded item from a
 * CarPlay list, or jumping straight to Now Playing when it is already the
 * current one, and the poll that pushes Now Playing once audio is really
 * coming out (or after a timeout).
 *
 * The asynchronous session request is split in two: `PlayServerItem` returns
 * the request it sends, and `ServerSessionStarted` is its callback. Whether a
 * store write succeeds is a parameter. The repeating timer is the `poll` field
 * (the milliseconds counted so far, or nothing when no poll is running) and
 * one firing of it is `PollTimerFired`.
 */
module PlaybackManager {
  import opened Wrappers
  import opened AppStore
  import Player
  import SceneDelegate

  const PollIntervalMs: nat := 300
  const PollTimeoutMs: nat := 15000

  // ---------------------------------------------------------------------
  // The poll, as a pure state machine

  datatype PushReason = AudioConfirmed | TimedOut
  datatype PollStep = KeepPolling(elapsed: nat) | PushNow(reason: PushReason)

  /** What one tick does: audio playing with published info pushes, otherwise the timeout does. */
  function PollTick(elapsed: nat, playing: bool, hasInfo: bool): (r: PollStep)
    ensures r == PushNow(AudioConfirmed) <==> playing && hasInfo
    ensures r == PushNow(TimedOut) <==> !(playing && hasInfo) && elapsed + PollIntervalMs >= PollTimeoutMs
    ensures r.KeepPolling? ==> r.elapsed == elapsed + PollIntervalMs < PollTimeoutMs
  {
    var now := elapsed + PollIntervalMs;
    if playing && hasInfo then PushNow(AudioConfirmed)
    else if now >= PollTimeoutMs then PushNow(TimedOut)
    else KeepPolling(now)
  }

  /** What a tick sees: the player's time-control status and whether the system has now-playing info. */
  datatype Observation = Observation(playing: bool, hasInfo: bool)

  /** Whether the tick that ends at `elapsedAfter` ms and sees `o` stops the poll. */
  predicate Stops(o: Observation, elapsedAfter: nat) {
    (o.playing && o.hasInfo) || elapsedAfter >= PollTimeoutMs
  }

  /** The index of the tick at which a poll that has counted `elapsed` ms pushes, given what each tick sees. */
  function PushTick(obs: seq<Observation>, elapsed: nat): Option<nat>
    decreases |obs|
  {
    if obs == [] then None
    else match PollTick(elapsed, obs[0].playing, obs[0].hasInfo)
      case PushNow(_) => Some(0)
      case KeepPolling(next) =>
        match PushTick(obs[1..], next)
        case None => None
        case Some(i) => Some(i + 1)
  }

  /** The poll pushes at the first tick that stops it, and not at all if no tick does. */
  lemma {:induction false} PushTickIsFirstStop(obs: seq<Observation>, elapsed: nat)
    ensures PushTick(obs, elapsed).None? <==>
      forall j | 0 <= j < |obs| :: !Stops(obs[j], elapsed + (j + 1) * PollIntervalMs)
    ensures PushTick(obs, elapsed).Some? ==>
      var i := PushTick(obs, elapsed).value;
      && i < |obs| && Stops(obs[i], elapsed + (i + 1) * PollIntervalMs)
      && forall j | 0 <= j < i :: !Stops(obs[j], elapsed + (j + 1) * PollIntervalMs)
    decreases |obs|
  {
    if obs != [] {
      var step := PollTick(elapsed, obs[0].playing, obs[0].hasInfo);
      if step.KeepPolling? {
        var next := elapsed + PollIntervalMs;
        var rest := obs[1..];
        PushTickIsFirstStop(rest, next);
        forall j | 1 <= j < |obs|
          ensures Stops(obs[j], elapsed + (j + 1) * PollIntervalMs) == Stops(rest[j - 1], next + j * PollIntervalMs)
        {
          assert obs[j] == rest[j - 1];
        }
      }
    }
  }

  /** Fifty ticks of 300 ms reach the 15 s timeout: a fresh poll always pushes by then. */
  lemma PushWithinTimeout(obs: seq<Observation>)
    requires |obs| >= PollTimeoutMs / PollIntervalMs
    ensures PushTick(obs, 0).Some? && PushTick(obs, 0).value < PollTimeoutMs / PollIntervalMs
  {
    PushTickIsFirstStop(obs, 0);
    assert Stops(obs[49], 0 + (49 + 1) * PollIntervalMs);
  }

  /** A fresh poll pushes no later than the first tick that sees audio with info. */
  lemma PushNoLaterThanConfirmation(obs: seq<Observation>, k: nat)
    requires k < |obs| && obs[k].playing && obs[k].hasInfo
    ensures PushTick(obs, 0).Some? && PushTick(obs, 0).value <= k
  {
    PushTickIsFirstStop(obs, 0);
  }

  /** A push before the timeout tick is always one that saw audio playing with info. */
  lemma EarlyPushMeansAudio(obs: seq<Observation>)
    requires PushTick(obs, 0).Some? && PushTick(obs, 0).value < PollTimeoutMs / PollIntervalMs - 1
    ensures PushTick(obs, 0).value < |obs|
    ensures obs[PushTick(obs, 0).value].playing && obs[PushTick(obs, 0).value].hasInfo
  {
    PushTickIsFirstStop(obs, 0);
  }

  // ---------------------------------------------------------------------
  // The manager

  /** The playback-session request sent to the server, with the rate read when it was sent. */
  datatype SessionRequest = SessionRequest(libraryItemId: string, episodeId: Option<string>, playbackRate: real)

  /** Whether `s` already plays the server item `itemId` (and the episode, when one is asked for). */
  predicate PlaysServerItem(s: Option<Player.Session>, itemId: string, episodeId: Option<string>) {
    s.Some? && s.value.libraryItemId == Some(itemId) && (episodeId.None? || s.value.episodeId == episodeId)
  }

  /** Whether `s` already plays the downloaded item `localId` (and the episode, when one is asked for). */
  predicate PlaysLocalItem(s: Option<Player.Session>, localId: string, episodeId: Option<string>) {
    s.Some? && s.value.localLibraryItemId == Some(localId) && (episodeId.None? || s.value.episodeId == episodeId)
  }

  /** The server session as stored: stamped with the current server connection. */
  function Stamped(s: Player.Session, env: StoreState): (r: Player.Session)
    ensures r.serverConnectionConfigId == env.ConfigId() && r.serverAddress == env.Address()
    ensures r.(serverConnectionConfigId := s.serverConnectionConfigId, serverAddress := s.serverAddress) == s
  {
    s.(serverConnectionConfigId := env.ConfigId(), serverAddress := env.Address())
  }

  class PlaybackManager {
    /** Milliseconds counted by the running poll timer; None when no timer runs. */
    var poll: Option<nat>
    const handler: Player.PlayerHandler
    const scene: SceneDelegate.CarPlayScene

    constructor (handler: Player.PlayerHandler, scene: SceneDelegate.CarPlayScene)
      ensures this.handler == handler && this.scene == scene && poll.None?
    {
      this.handler := handler;
      this.scene := scene;
      poll := None;
    }

    /** `scheduleNowPlayingPush`: replaces any running poll by a fresh one. */
    method ScheduleNowPlayingPush()
      modifies this`poll
      ensures poll == Some(0)
    {
      poll := Some(0);
    }

    /** One firing of the poll timer. */
    method PollTimerFired() returns (pushed: Option<PushReason>)
      requires poll.Some? && scene.Valid()
      modifies this`poll, scene`stack
      ensures scene.Valid()
      ensures
        var step := PollTick(old(poll).value, handler.IsAudioActuallyPlaying(), handler.nowPlaying.defaultCenter.nowPlayingInfo.Some?);
        && (step.KeepPolling? ==> poll == Some(step.elapsed) && pushed.None? && scene.stack == old(scene.stack))
        && (step.PushNow? ==>
              && poll.None? && pushed == Some(step.reason)
              && scene.stack == SceneDelegate.WithNowPlaying(scene.connected, old(scene.stack)))
    {
      var playing := handler.IsAudioActuallyPlaying();
      var hasInfo := handler.nowPlaying.defaultCenter.nowPlayingInfo.Some?;
      var step := PollTick(poll.value, playing, hasInfo);
      match step {
        case KeepPolling(elapsed) =>
          poll := Some(elapsed);
          pushed := None;
        case PushNow(reason) =>
          poll := None;
          scene.PushNowPlaying();
          pushed := Some(reason);
      }
    }

    /** `playServerItem`: shows Now Playing if the item already plays, otherwise requests a session. */
    method PlayServerItem(libraryItemId: string, episodeId: Option<string>, settings: Player.PlayerSettings)
      returns (request: Option<SessionRequest>)
      requires scene.Valid()
      modifies scene`stack
      ensures scene.Valid()
      ensures PlaysServerItem(handler.CurrentSession(), libraryItemId, episodeId) ==>
        request.None? && scene.stack == SceneDelegate.WithNowPlaying(scene.connected, old(scene.stack))
      ensures !PlaysServerItem(handler.CurrentSession(), libraryItemId, episodeId) ==>
        request == Some(SessionRequest(libraryItemId, episodeId, settings.playbackRate)) && scene.stack == old(scene.stack)
    {
      if PlaysServerItem(handler.CurrentSession(), libraryItemId, episodeId) {
        scene.PushNowPlaying();
        return None;
      }
      request := Some(SessionRequest(libraryItemId, episodeId, settings.playbackRate));
    }

    /** The server answered `request` with `session`: stamp, save, start playing, then poll. */
    method ServerSessionStarted(request: SessionRequest, session: Player.Session, env: StoreState, saveSucceeds: bool)
      returns (outcome: Option<Player.StartOutcome>)
      modifies handler, handler.store`sessions, handler.player, handler.nowPlaying,
        handler.nowPlaying.defaultCenter, handler.nowPlaying.sessionCenter, this`poll
      ensures outcome.None? <==> session.id == "" || !saveSucceeds
      ensures outcome.None? ==>
        && handler.player == old(handler.player) && handler.lifecycle == old(handler.lifecycle)
        && handler.store.sessions == old(handler.store.sessions) && poll == old(poll)
      ensures outcome.None? ==>
        && unchanged(handler)
        && (old(handler.player) != null ==> unchanged(old(handler.player)))
        && unchanged(handler.nowPlaying) && unchanged(handler.nowPlaying.defaultCenter)
        && (handler.nowPlaying.sessionCenter != null ==> unchanged(handler.nowPlaying.sessionCenter))
      ensures outcome.Some? ==>
        var stamped := Stamped(session, env);
        && outcome.value != Player.SessionNotFound
        && (outcome.value.Started? <==> session.libraryItemId.Some?)
        && handler.store.sessions == Player.CleanedUp(old(handler.store.sessions)[session.id := stamped], env.ConfigId(), Some(session.id))
        && handler.player != null && handler.player.session == stamped
        && handler.player.playWhenReady && handler.player.rate == request.playbackRate
        && (outcome.value.Started? ==> poll == Some(0))
    {
      if session.id == "" || !saveSucceeds {
        return None;
      }
      var started := SaveAndStart(Stamped(session, env), request.playbackRate, env);
      outcome := Some(started);
    }

    /** Saves `s`, starts it with play-when-ready, and starts the poll when playback starts. */
    method SaveAndStart(s: Player.Session, rate: real, env: StoreState) returns (started: Player.StartOutcome)
      modifies handler, handler.store`sessions, handler.player, handler.nowPlaying,
        handler.nowPlaying.defaultCenter, handler.nowPlaying.sessionCenter, this`poll
      ensures started != Player.SessionNotFound
      ensures started.Started? <==> s.libraryItemId.Some?
      ensures handler.store.sessions == Player.CleanedUp(old(handler.store.sessions)[s.id := s], env.ConfigId(), Some(s.id))
      ensures handler.player != null && handler.player.session == s
      ensures handler.player.playWhenReady && handler.player.rate == rate
      ensures started.Started? ==> poll == Some(0)
    {
      handler.store.Save(s);
      started := handler.StartPlayback(s.id, true, rate, env);
      if started.Started? {
        ScheduleNowPlayingPush();
      }
    }

    /**
     * `playLocalItem`: shows Now Playing if the downloaded item already plays;
     * otherwise saves `built`, the session the downloaded item builds for the
     * episode, and starts it.
     */
    method PlayLocalItem(localId: string, episodeId: Option<string>, settings: Player.PlayerSettings,
                         built: Player.Session, env: StoreState, saveSucceeds: bool)
      returns (outcome: Option<Player.StartOutcome>)
      requires scene.Valid()
      modifies scene`stack, handler, handler.store`sessions, handler.player, handler.nowPlaying,
        handler.nowPlaying.defaultCenter, handler.nowPlaying.sessionCenter, this`poll
      ensures scene.Valid()
      ensures PlaysLocalItem(old(handler.CurrentSession()), localId, episodeId) ==>
        && outcome.None? && scene.stack == SceneDelegate.WithNowPlaying(scene.connected, old(scene.stack))
        && handler.player == old(handler.player) && handler.store.sessions == old(handler.store.sessions)
      ensures !PlaysLocalItem(old(handler.CurrentSession()), localId, episodeId) ==>
        && scene.stack == old(scene.stack)
        && (outcome.None? <==> Player.FindLocalItem(handler.store.localItems, localId).None? || !saveSucceeds)
      ensures outcome.None? ==>
        handler.lifecycle == old(handler.lifecycle) && handler.store.sessions == old(handler.store.sessions) && poll == old(poll)
      ensures outcome.None? ==>
        && unchanged(handler)
        && (old(handler.player) != null ==> unchanged(old(handler.player)))
        && unchanged(handler.nowPlaying) && unchanged(handler.nowPlaying.defaultCenter)
        && (handler.nowPlaying.sessionCenter != null ==> unchanged(handler.nowPlaying.sessionCenter))
      ensures outcome.Some? ==>
        && outcome.value != Player.SessionNotFound
        && handler.store.sessions == Player.CleanedUp(old(handler.store.sessions)[built.id := built], env.ConfigId(), Some(built.id))
        && handler.player != null && handler.player.session == built
        && handler.player.playWhenReady && handler.player.rate == settings.playbackRate
        && (outcome.value.Started? ==> poll == Some(0))
    {
      if PlaysLocalItem(handler.CurrentSession(), localId, episodeId) {
        scene.PushNowPlaying();
        return None;
      }
      var rate := settings.playbackRate;
      if Player.FindLocalItem(handler.store.localItems, localId).None? || !saveSucceeds {
        return None;
      }
      var started := SaveAndStart(built, rate, env);
      outcome := Some(started);
    }
  }
}
