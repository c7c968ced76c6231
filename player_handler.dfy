/**
 * The owner of the single current audio player: starting a stored session
 * replaces the player, stopping drops it, and both deactivate every other
 * active session of the current server connection in the session store.
 *
 * The audio engine (`AudioPlayer`) is external: its observable state is a
 * set of fields that the engine updates, and the commands it receives from
 * this layer are recorded in order.
 */
module Player {
  import opened Wrappers
  import opened AppStore
  import NowPlaying

  datatype Chapter = Chapter(start: real, end: real, title: Option<string>)

  /** A stored playback session (`PlaybackSession`). */
  datatype Session = Session(
    id: string,
    libraryItemId: Option<string>,
    episodeId: Option<string>,
    localLibraryItemId: Option<string>,
    serverConnectionConfigId: Option<string>,
    serverAddress: Option<string>,
    isLocal: bool,
    isActiveSession: bool,
    displayTitle: Option<string>,
    displayAuthor: Option<string>,
    duration: real,
    currentTime: real,
    chapters: seq<Chapter>)

  /** The store query of the cleanup: active sessions of connection scope `scope`. */
  predicate ActiveIn(s: Session, scope: Option<string>) {
    s.isActiveSession && s.serverConnectionConfigId == scope
  }

  /** Sessions are stored under their own id (the store's primary key). */
  ghost predicate KeyedById(m: map<string, Session>) {
    forall id | id in m :: m[id].id == id
  }

  /** At most one session of scope `scope` is active. */
  ghost predicate AtMostOneActive(m: map<string, Session>, scope: Option<string>) {
    forall a, b | a in m && b in m && ActiveIn(m[a], scope) && ActiveIn(m[b], scope) :: a == b
  }

  /**
   * The store after `cleanupOldSessions(currentSessionId: current)`: every
   * active session of the scope whose id is not `current` is deactivated.
   */
  function CleanedUp(m: map<string, Session>, scope: Option<string>, current: Option<string>): (r: map<string, Session>)
    ensures r.Keys == m.Keys
    // only the active flag may change, and only from true to false
    ensures forall id | id in m :: r[id] == m[id] || (m[id].isActiveSession && r[id] == m[id].(isActiveSession := false))
    // afterwards the scope holds no active session other than `current`
    ensures forall id | id in r :: ActiveIn(r[id], scope) ==> Some(r[id].id) == current
    // other scopes and the current session are untouched
    ensures forall id | id in m :: m[id].serverConnectionConfigId != scope ==> r[id] == m[id]
    ensures forall id | id in m :: Some(m[id].id) == current ==> r[id] == m[id]
  {
    map id | id in m :: if ActiveIn(m[id], scope) && Some(m[id].id) != current then m[id].(isActiveSession := false) else m[id]
  }

  /** After starting session `cur`, it is the only active session its scope can hold. */
  lemma CleanupLeavesAtMostOneActive(m: map<string, Session>, scope: Option<string>, cur: string)
    requires KeyedById(m)
    ensures KeyedById(CleanedUp(m, scope, Some(cur)))
    ensures AtMostOneActive(CleanedUp(m, scope, Some(cur)), scope)
  {
    var r := CleanedUp(m, scope, Some(cur));
    forall a, b | a in r && b in r && ActiveIn(r[a], scope) && ActiveIn(r[b], scope)
      ensures a == b
    {
      assert r[a].id == m[a].id == a;
      assert r[b].id == m[b].id == b;
    }
  }

  /** Stopping without a current id leaves no active session in the scope. */
  lemma CleanupWithoutCurrentDeactivatesAll(m: map<string, Session>, scope: Option<string>)
    ensures forall id | id in CleanedUp(m, scope, None) :: !ActiveIn(CleanedUp(m, scope, None)[id], scope)
  {
  }

  /** Running the cleanup twice is the same as once. */
  lemma CleanupIdempotent(m: map<string, Session>, scope: Option<string>, current: Option<string>)
    ensures CleanedUp(CleanedUp(m, scope, current), scope, current) == CleanedUp(m, scope, current)
  {
  }

  /** The first item of `items` whose local id is `id`. */
  function FindLocalItem(items: seq<LocalItem>, id: string): (r: Option<LocalItem>)
    ensures r.Some? ==> r.value in items && r.value.id == id
    ensures r.None? <==> forall i | 0 <= i < |items| :: items[i].id != id
    ensures r.Some? ==> exists k | 0 <= k < |items| :: items[k] == r.value && forall j | 0 <= j < k :: items[j].id != id
  {
    if items == [] then None
    else if items[0].id == id then Some(items[0])
    else
      var r := FindLocalItem(items[1..], id);
      assert r.Some? ==> exists k | 0 <= k < |items| :: items[k] == r.value && forall j | 0 <= j < k :: items[j].id != id by {
        if r.Some? {
          var k :| 0 <= k < |items[1..]| && items[1..][k] == r.value && forall j | 0 <= j < k :: items[1..][j].id != id;
          assert items[k + 1] == r.value;
          assert forall j | 0 <= j < k + 1 :: items[j].id != id by {
            forall j | 0 <= j < k + 1 ensures items[j].id != id {
              if j > 0 { assert items[j] == items[1..][j - 1]; }
            }
          }
        }
      }
      assert r.None? ==> forall i | 0 <= i < |items| :: items[i].id != id by {
        if r.None? {
          forall i | 0 <= i < |items| ensures items[i].id != id {
            if i > 0 { assert items[i] == items[1..][i - 1]; }
          }
        }
      }
      r
  }

  /** The first item of `items` downloaded from server item `serverId`. */
  function FindLocalItemByServerId(items: seq<LocalItem>, serverId: string): (r: Option<LocalItem>)
    ensures r.Some? ==> r.value in items && r.value.libraryItemId == Some(serverId)
    ensures r.None? <==> forall i | 0 <= i < |items| :: items[i].libraryItemId != Some(serverId)
  {
    if items == [] then None
    else if items[0].libraryItemId == Some(serverId) then Some(items[0])
    else
      var r := FindLocalItemByServerId(items[1..], serverId);
      assert r.None? ==> forall i | 0 <= i < |items| :: items[i].libraryItemId != Some(serverId) by {
        if r.None? {
          forall i | 0 <= i < |items| ensures items[i].libraryItemId != Some(serverId) {
            if i > 0 { assert items[i] == items[1..][i - 1]; }
          }
        }
      }
      r
  }

  /** The database: stored sessions by id, and the downloaded items in query order. */
  class SessionStore {
    var sessions: map<string, Session>
    var localItems: seq<LocalItem>

    ghost predicate Valid()
      reads this
    {
      KeyedById(sessions)
    }

    constructor (localItems: seq<LocalItem>)
      ensures Valid() && sessions == map[] && this.localItems == localItems
    {
      sessions := map[];
      this.localItems := localItems;
    }

    /** `session.save()`: adds the session or overwrites the stored copy with the same id. */
    method Save(s: Session)
      modifies this`sessions
      ensures sessions == old(sessions)[s.id := s]
      ensures old(Valid()) ==> Valid()
    {
      sessions := sessions[s.id := s];
    }

    method Deactivate(id: string)
      requires id in sessions
      modifies this`sessions
      ensures sessions == old(sessions)[id := old(sessions)[id].(isActiveSession := false)]
    {
      sessions := sessions[id := sessions[id].(isActiveSession := false)];
    }
  }

  /** `AVPlayer.TimeControlStatus` */
  datatype TimeControlStatus = Paused | WaitingToPlayAtSpecifiedRate | Playing

  /** The engine's own coarse state, reported by `getPlayerState()`. */
  datatype PlayerState = Idle | Buffering | Ready | Ended

  /** What this layer asks the engine to do. */
  datatype Command = Pause | Play(allowSeekBack: bool) | SeekTo(time: real) | SetRate(rate: real)

  /** `PlaybackMetadata` as `getMetdata` reports it. */
  datatype PlaybackMetadata = PlaybackMetadata(duration: real, currentTime: real, playerState: PlayerState)

  /** The audio engine for one session. Fields other than `commands` and `destroyed` are the engine's. */
  class AudioPlayer {
    const sessionId: string
    var session: Session
    var playWhenReady: bool
    var rate: real
    var timeControlStatus: TimeControlStatus
    var initialized: bool
    var currentTime: Option<real>
    var duration: Option<real>
    var playerState: PlayerState
    var commands: seq<Command>
    var destroyed: bool

    /** A new engine for `session`; it is not initialized until its tracks load. */
    constructor (session: Session, playWhenReady: bool, playbackRate: real)
      ensures sessionId == session.id && this.session == session
      ensures this.playWhenReady == playWhenReady && rate == playbackRate
      ensures timeControlStatus == Paused && !initialized && currentTime.None? && duration.None?
      ensures playerState == Idle && commands == [] && !destroyed
    {
      sessionId := session.id;
      this.session := session;
      this.playWhenReady := playWhenReady;
      rate := playbackRate;
      timeControlStatus := Paused;
      initialized := false;
      currentTime := None;
      duration := None;
      playerState := Idle;
      commands := [];
      destroyed := false;
    }

    /** Every field but the command log is as it was in the pre-state. */
    twostate predicate OnlyCommandsChanged()
      reads this
    {
      && session == old(session) && playWhenReady == old(playWhenReady) && rate == old(rate)
      && timeControlStatus == old(timeControlStatus) && initialized == old(initialized)
      && currentTime == old(currentTime) && duration == old(duration)
      && playerState == old(playerState) && destroyed == old(destroyed)
    }

    method Send(c: Command)
      modifies this`commands
      ensures commands == old(commands) + [c]
    {
      commands := commands + [c];
    }

    method Destroy()
      modifies this`destroyed
      ensures destroyed
    {
      destroyed := true;
    }
  }

  /** `PlayerSettings.main()`: the persisted playback rate that new sessions start with. */
  class PlayerSettings {
    var playbackRate: real

    constructor (playbackRate: real)
      ensures this.playbackRate == playbackRate
    {
      this.playbackRate := playbackRate;
    }
  }

  /** The handler's own log of player and audio-session lifecycle steps, in order. */
  datatype Lifecycle =
    | PlayerDestroyed(sessionId: string, keepAudioSessionActive: bool)
    | AudioSessionActivation
    | PlayerCreated(sessionId: string, playWhenReady: bool, playbackRate: real)

  datatype StartOutcome =
    | SessionNotFound
    /** Started; `coverRequest` is the artwork download begun for the new projection. */
    | Started(coverRequest: Option<string>)
    /** The stored session has no library item id: the force-unwrap traps after the player is created. */
    | CrashedOnMissingItemId

  /** The now-playing metadata `startPlayback` publishes for session `s`. */
  function SessionMetadata(s: Session, playbackRate: real): (m: NowPlaying.Metadata)
    requires s.libraryItemId.Some?
    ensures m.id == s.id && m.itemId == s.libraryItemId.value && m.playbackRate == playbackRate
    ensures m.duration == s.duration && m.currentTime == s.currentTime
    ensures m.title == if s.displayTitle.Some? then s.displayTitle.value else "Unknown title"
    ensures m.author == s.displayAuthor && m.isLocal == s.isLocal
  {
    NowPlaying.Metadata(
      s.id, s.libraryItemId.value, s.displayTitle.GetOr("Unknown title"), s.displayAuthor, None,
      s.isLocal, playbackRate, s.duration, s.currentTime, None)
  }

  class PlayerHandler {
    var player: AudioPlayer?
    var lifecycle: seq<Lifecycle>
    const store: SessionStore
    const nowPlaying: NowPlaying.NowPlayingInfo

    constructor (store: SessionStore, nowPlaying: NowPlaying.NowPlayingInfo)
      ensures this.store == store && this.nowPlaying == nowPlaying
      ensures player == null && lifecycle == []
    {
      this.store := store;
      this.nowPlaying := nowPlaying;
      player := null;
      lifecycle := [];
    }

    /** `getPlaybackSession()`: the session of the current player. */
    function CurrentSession(): (r: Option<Session>)
      reads this, player
      ensures r.None? <==> player == null
      ensures r.Some? ==> r.value == player.session
    {
      if player == null then None else Some(player.session)
    }

    /** `paused`: true without a player; otherwise exactly when the rate is 0. */
    function Paused(): (r: bool)
      reads this, player
      ensures player == null ==> r
      ensures player != null ==> (r <==> player.rate == 0.0)
    {
      player == null || player.rate == 0.0
    }

    /** Audio is really coming out: the engine reports `.playing`, whatever the rate says. */
    function IsAudioActuallyPlaying(): (r: bool)
      reads this, player
      ensures r <==> player != null && player.timeControlStatus == Playing
    {
      player != null && player.timeControlStatus == Playing
    }

    /** `getMetdata()`: only for an initialized player; missing times read as 0. */
    function Metadata(): (r: Option<PlaybackMetadata>)
      reads this, player
      ensures r.Some? <==> player != null && player.initialized
      ensures r.Some? ==> r.value.duration == (if player.duration.Some? then player.duration.value else 0.0)
      ensures r.Some? ==> r.value.currentTime == (if player.currentTime.Some? then player.currentTime.value else 0.0)
      ensures r.Some? ==> r.value.playerState == player.playerState
    {
      if player == null || !player.initialized then None
      else Some(PlaybackMetadata(player.duration.GetOr(0.0), player.currentTime.GetOr(0.0), player.playerState))
    }

    /** The lifecycle entry `resetPlayer` adds for the player `p`, if there is one. */
    static function DestroyEvents(p: AudioPlayer?, keepAudioSessionActive: bool): seq<Lifecycle> {
      if p == null then [] else [PlayerDestroyed(p.sessionId, keepAudioSessionActive)]
    }

    /** Destroys the current player, if any, and leaves none. */
    method ResetPlayer(keepAudioSessionActive: bool)
      modifies this`player, this`lifecycle, player
      ensures player == null
      ensures old(player) != null ==> old(player).destroyed && old(player).commands == old(player.commands)
      ensures lifecycle == old(lifecycle) + DestroyEvents(old(player), keepAudioSessionActive)
    {
      if player != null {
        player.Destroy();
        lifecycle := lifecycle + [PlayerDestroyed(player.sessionId, keepAudioSessionActive)];
      }
      player := null;
    }

    /** Deactivates every active session of `scope` except `current`. */
    method CleanupOldSessions(current: Option<string>, scope: Option<string>)
      modifies store`sessions
      ensures store.sessions == CleanedUp(old(store.sessions), scope, current)
    {
      ghost var m0 := store.sessions;
      var oldSessions := set id | id in store.sessions && ActiveIn(store.sessions[id], scope);
      var todo := oldSessions;
      while todo != {}
        invariant todo <= oldSessions
        invariant store.sessions.Keys == m0.Keys
        invariant forall id | id in m0 ::
          store.sessions[id] == if id in oldSessions - todo && Some(m0[id].id) != current
                                then m0[id].(isActiveSession := false) else m0[id]
        decreases todo
      {
        var id :| id in todo;
        var s := store.sessions[id];
        if Some(s.id) != current {
          store.Deactivate(id);
        }
        todo := todo - {id};
      }
      ghost var r := CleanedUp(m0, scope, current);
      assert forall id | id in m0 :: store.sessions[id] == r[id];
    }

    /**
     * Starts stored session `sessionId`: destroys the old player, cleans up
     * the other sessions of the scope, creates the new player and publishes
     * its now-playing metadata.
     */
    method StartPlayback(sessionId: string, playWhenReady: bool, playbackRate: real, env: StoreState)
      returns (outcome: StartOutcome)
      modifies this, store`sessions, player, nowPlaying, nowPlaying.defaultCenter, nowPlaying.sessionCenter
      ensures outcome == SessionNotFound <==> sessionId !in old(store.sessions)
      // the secondary center stays registered whatever the outcome
      ensures nowPlaying.sessionCenter == old(nowPlaying.sessionCenter)
      // an unknown id changes nothing at all
      ensures outcome == SessionNotFound ==>
        && player == old(player) && lifecycle == old(lifecycle)
        && store.sessions == old(store.sessions)
        && (old(player) != null ==> unchanged(old(player)))
        && unchanged(nowPlaying) && unchanged(nowPlaying.defaultCenter)
        && (nowPlaying.sessionCenter != null ==> unchanged(nowPlaying.sessionCenter))
      ensures outcome != SessionNotFound ==>
        && (old(player) != null ==> old(player).destroyed)
        && store.sessions == CleanedUp(old(store.sessions), env.ConfigId(), Some(sessionId))
        && player != null && fresh(player)
        && player.session == old(store.sessions)[sessionId]
        && player.playWhenReady == playWhenReady && player.rate == playbackRate
        // the old player is destroyed before the new one is created
        && lifecycle == old(lifecycle) + DestroyEvents(old(player), playWhenReady)
                        + (if playWhenReady then [AudioSessionActivation] else [])
                        + [PlayerCreated(sessionId, playWhenReady, playbackRate)]
      ensures outcome.Started? <==>
        sessionId in old(store.sessions) && old(store.sessions)[sessionId].libraryItemId.Some?
      ensures outcome.Started? ==>
        var s := old(store.sessions)[sessionId];
        var m := SessionMetadata(s, playbackRate);
        && nowPlaying.info == NowPlaying.WithSession(old(nowPlaying.info), m)
        && nowPlaying.storedTitle == Some(m.title) && nowPlaying.storedAuthor == s.displayAuthor
        && nowPlaying.Published() && nowPlaying.InState(NowPlaying.Playing)
        && outcome.coverRequest == NowPlaying.CoverUrl(m, env, FindLocalItemByServerId(store.localItems, m.itemId))
      ensures outcome == CrashedOnMissingItemId ==>
        && unchanged(nowPlaying) && unchanged(nowPlaying.defaultCenter)
        && (nowPlaying.sessionCenter != null ==> unchanged(nowPlaying.sessionCenter))
    {
      if sessionId !in store.sessions {
        return SessionNotFound;
      }
      var session := store.sessions[sessionId];
      ResetPlayer(playWhenReady);
      CleanupOldSessions(Some(sessionId), env.ConfigId());
      outcome := CreatePlayer(sessionId, session, playWhenReady, playbackRate, env);
    }

    /**
     * The second half of `startPlayback`: activates the audio session, creates
     * the player for `session` (stored under `sessionId`) and publishes its
     * metadata, which needs the session's library item id.
     */
    method CreatePlayer(sessionId: string, session: Session, playWhenReady: bool, playbackRate: real, env: StoreState)
      returns (outcome: StartOutcome)
      modifies this`player, this`lifecycle, nowPlaying`info, nowPlaying`storedTitle, nowPlaying`storedAuthor,
        nowPlaying.defaultCenter, nowPlaying.sessionCenter
      ensures player != null && fresh(player) && player.session == session
      ensures player.playWhenReady == playWhenReady && player.rate == playbackRate
      ensures lifecycle == old(lifecycle) + (if playWhenReady then [AudioSessionActivation] else [])
                           + [PlayerCreated(sessionId, playWhenReady, playbackRate)]
      ensures outcome != SessionNotFound
      ensures outcome.Started? <==> session.libraryItemId.Some?
      ensures outcome.Started? ==>
        var m := SessionMetadata(session, playbackRate);
        && nowPlaying.info == NowPlaying.WithSession(old(nowPlaying.info), m)
        && nowPlaying.storedTitle == Some(m.title) && nowPlaying.storedAuthor == session.displayAuthor
        && nowPlaying.Published() && nowPlaying.InState(NowPlaying.Playing)
        && outcome.coverRequest == NowPlaying.CoverUrl(m, env, FindLocalItemByServerId(store.localItems, m.itemId))
      ensures !outcome.Started? ==>
        && unchanged(nowPlaying) && unchanged(nowPlaying.defaultCenter)
        && (nowPlaying.sessionCenter != null ==> unchanged(nowPlaying.sessionCenter))
    {
      if playWhenReady {
        lifecycle := lifecycle + [AudioSessionActivation];
      }
      player := new AudioPlayer(session, playWhenReady, playbackRate);
      lifecycle := lifecycle + [PlayerCreated(sessionId, playWhenReady, playbackRate)];
      if session.libraryItemId.None? {
        return CrashedOnMissingItemId;
      }
      var m := SessionMetadata(session, playbackRate);
      var cover := nowPlaying.SetSessionMetadata(m, env, FindLocalItemByServerId(store.localItems, m.itemId));
      outcome := Started(cover);
    }

    /** Pauses and destroys the player, cleans up the scope and resets the projection. */
    method StopPlayback(current: Option<string>, env: StoreState)
      modifies this, store`sessions, player, nowPlaying, nowPlaying.defaultCenter, nowPlaying.sessionCenter
      ensures player == null
      ensures old(player) != null ==> old(player).commands == old(player.commands) + [Pause] && old(player).destroyed
      ensures lifecycle == old(lifecycle) + DestroyEvents(old(player), false)
      ensures store.sessions == CleanedUp(old(store.sessions), env.ConfigId(), current)
      ensures nowPlaying.info == NowPlaying.EmptyRecord && nowPlaying.sessionCenter == null
      ensures nowPlaying.storedTitle.None? && nowPlaying.storedAuthor.None?
      ensures nowPlaying.defaultCenter.nowPlayingInfo.None? && nowPlaying.defaultCenter.playbackState == NowPlaying.Stopped
      ensures old(nowPlaying.sessionCenter) != null ==>
        old(nowPlaying.sessionCenter).nowPlayingInfo.None? && old(nowPlaying.sessionCenter).playbackState == NowPlaying.Stopped
    {
      if player != null {
        player.Send(Pause);
      }
      ResetPlayer(false);
      CleanupOldSessions(current, env.ConfigId());
      nowPlaying.Reset();
    }

    /** The `paused` setter: pause, or play allowing a seek back. */
    method SetPaused(paused: bool)
      modifies player
      ensures player == old(player)
      ensures player != null ==> player.OnlyCommandsChanged()
      ensures player != null ==> player.commands == old(player.commands) + [if paused then Pause else Play(true)]
    {
      if player != null {
        player.Send(if paused then Pause else Play(true));
      }
    }

    method SetPlaybackSpeed(speed: real)
      modifies player
      ensures player == old(player)
      ensures player != null ==> player.OnlyCommandsChanged()
      ensures player != null ==> player.commands == old(player.commands) + [SetRate(speed)]
    {
      if player != null {
        player.Send(SetRate(speed));
      }
    }

    /** Seeks `amount` seconds ahead of the time before the call; a no-op unless the player is initialized and knows its time. */
    method SeekForward(amount: real)
      modifies player
      ensures player == old(player)
      ensures player != null ==> player.OnlyCommandsChanged()
      ensures player != null && player.initialized && player.currentTime.Some? ==>
        player.commands == old(player.commands) + [SeekTo(old(player.currentTime).value + amount)]
      ensures player != null && !(player.initialized && player.currentTime.Some?) ==>
        player.commands == old(player.commands)
    {
      if player == null || !player.initialized || player.currentTime.None? {
        return;
      }
      player.Send(SeekTo(player.currentTime.value + amount));
    }

    /** Seeks `amount` seconds behind the time before the call; a no-op unless the player is initialized and knows its time. */
    method SeekBackward(amount: real)
      modifies player
      ensures player == old(player)
      ensures player != null ==> player.OnlyCommandsChanged()
      ensures player != null && player.initialized && player.currentTime.Some? ==>
        player.commands == old(player.commands) + [SeekTo(old(player.currentTime).value - amount)]
      ensures player != null && !(player.initialized && player.currentTime.Some?) ==>
        player.commands == old(player.commands)
    {
      if player == null || !player.initialized || player.currentTime.None? {
        return;
      }
      player.Send(SeekTo(player.currentTime.value - amount));
    }

    /** Seeks to the absolute time `to`; a no-op unless the player is initialized. */
    method Seek(to: real)
      modifies player
      ensures player == old(player)
      ensures player != null ==> player.OnlyCommandsChanged()
      ensures player != null && player.initialized ==> player.commands == old(player.commands) + [SeekTo(to)]
      ensures player != null && !player.initialized ==> player.commands == old(player.commands)
    {
      if player == null || !player.initialized {
        return;
      }
      player.Send(SeekTo(to));
    }
  }
}
