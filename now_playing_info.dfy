/**
 * The now-playing projection: one in-memory record of the fields shown on
 * the lock screen and in the car, written by a single owner and mirrored
 * to the default info center and, when one is registered and distinct, to
 * the playback session's own info center.
 *
 * Every main-queue block of the original is one atomic method here; the
 * asynchronous cover download is split off as `ArtworkLoaded`, the step
 * that runs when the download completes.
 */
module NowPlaying {
  import opened Wrappers
  import opened AppStore

  /** What the player layer knows about the session it publishes (`NowPlayingMetadata`). */
  datatype Metadata = Metadata(
    id: string,
    itemId: string,
    title: string,
    author: Option<string>,
    series: Option<string>,
    isLocal: bool,
    playbackRate: real,
    duration: real,
    currentTime: real,
    chapterTitle: Option<string>)

  /** The server's cover endpoint for an item; servers before 2.17.0 need the token as a query. */
  function ServerCoverUrl(config: ServerConfig, itemId: string, serverAtLeast2170: bool): (url: string)
    ensures var base := config.address + "/api/items/" + itemId + "/cover";
      && base <= url
      && (url == base <==> serverAtLeast2170)
      && (!serverAtLeast2170 ==> url[|base|..] == "?token=" + config.token)
  {
    var base := config.address + "/api/items/" + itemId + "/cover";
    if serverAtLeast2170 then base else base + "?token=" + config.token
  }

  /**
   * `NowPlayingMetadata.coverUrl`. `localMatch` is what the database returns
   * for the downloaded item whose server id is `m.itemId`.
   */
  function CoverUrl(m: Metadata, env: StoreState, localMatch: Option<LocalItem>): (r: Option<string>)
    ensures m.isLocal && localMatch.None? ==> r.None?
    ensures m.isLocal && localMatch.Some? ==> r == localMatch.value.coverUrl
    ensures !m.isLocal && env.serverConfig.None? ==> r.None?
    ensures !m.isLocal && env.serverConfig.Some? ==>
      r == Some(ServerCoverUrl(env.serverConfig.value, m.itemId, env.serverAtLeast2170))
  {
    if m.isLocal then
      match localMatch
      case None => None
      case Some(item) => item.coverUrl
    else
      match env.serverConfig
      case None => None
      case Some(config) => Some(ServerCoverUrl(config, m.itemId, env.serverAtLeast2170))
  }

  /** `MPNowPlayingPlaybackState` */
  datatype PlaybackState = Unknown | Playing | Paused | Stopped

  /** `MPNowPlayingInfoMediaType` */
  datatype MediaType = Audio

  datatype Artwork = Artwork(image: Image)

  /** The now-playing dictionary, one optional field per key the layer writes. */
  datatype Record = Record(
    identifier: Option<string>,
    playbackRate: Option<real>,
    defaultPlaybackRate: Option<real>,
    duration: Option<real>,
    elapsed: Option<real>,
    title: Option<string>,
    artist: Option<string>,
    albumTitle: Option<string>,
    artwork: Option<Artwork>,
    chapterNumber: Option<int>,
    chapterCount: Option<int>,
    mediaType: Option<MediaType>,
    isLiveStream: Option<bool>)

  const EmptyRecord := Record(None, None, None, None, None, None, None, None, None, None, None, None, None)

  /** The arguments of one `update(...)` call. */
  datatype Tick = Tick(
    duration: real,
    currentTime: real,
    rate: real,
    defaultRate: real,
    chapterName: Option<string>,
    chapterNumber: Option<int>,
    chapterCount: Option<int>)

  /** A new session's artwork must be fetched unless the same item already shows artwork. */
  function ShouldFetchCover(p: Record, id: string): (r: bool)
    ensures !r <==> p.identifier == Some(id) && p.artwork.Some?
  {
    p.identifier != Some(id) || p.artwork.None?
  }

  /** The record after the main-queue block of `setSessionMetadata`. */
  function WithSession(p: Record, m: Metadata): (r: Record)
    ensures r.playbackRate == Some(m.playbackRate) && r.defaultPlaybackRate == Some(m.playbackRate)
    ensures r.duration == Some(m.duration) && r.elapsed == Some(m.currentTime)
    ensures r.identifier == Some(m.id)
    ensures r.title == Some(m.title) && r.albumTitle == Some(m.title)
    ensures r.artist == Some(m.author.GetOr("unknown"))
    ensures r.isLiveStream == Some(false) && r.mediaType == Some(Audio)
    // artwork survives only a re-confirmation of the same item; otherwise it is cleared
    ensures r.artwork == if p.identifier == Some(m.id) then p.artwork else None
    ensures r.chapterNumber == p.chapterNumber && r.chapterCount == p.chapterCount
  {
    var artwork := if ShouldFetchCover(p, m.id) then None else p.artwork;
    p.(
      defaultPlaybackRate := Some(m.playbackRate),
      playbackRate := Some(m.playbackRate),
      duration := Some(m.duration),
      elapsed := Some(m.currentTime),
      artwork := artwork,
      identifier := Some(m.id),
      isLiveStream := Some(false),
      mediaType := Some(Audio),
      title := Some(m.title),
      artist := Some(m.author.GetOr("unknown")),
      albumTitle := Some(m.title))
  }

  predicate NonEmpty(s: Option<string>) {
    s.Some? && s.value != ""
  }

  /** The artist line during playback: "author · chapter", or whichever of the two is known. */
  function Subtitle(current: Option<string>, storedAuthor: Option<string>, chapterName: Option<string>): (r: Option<string>)
    ensures NonEmpty(chapterName) && NonEmpty(storedAuthor) ==>
      r == Some(storedAuthor.value + " \U{00B7} " + chapterName.value)
    ensures NonEmpty(chapterName) && !NonEmpty(storedAuthor) ==> r == chapterName
    ensures !NonEmpty(chapterName) && storedAuthor.Some? ==> r == storedAuthor
    ensures !NonEmpty(chapterName) && storedAuthor.None? ==> r == current
  {
    if NonEmpty(chapterName) then
      if NonEmpty(storedAuthor) then Some(storedAuthor.value + " \U{00B7} " + chapterName.value)
      else chapterName
    else if storedAuthor.Some? then storedAuthor
    else current
  }

  /** The title during playback: the stored book title, else the album title, else unchanged. */
  function TickTitle(p: Record, storedTitle: Option<string>): (r: Option<string>)
    ensures storedTitle.Some? ==> r == storedTitle
    ensures storedTitle.None? && p.albumTitle.Some? ==> r == p.albumTitle
    ensures storedTitle.None? && p.albumTitle.None? ==> r == p.title
  {
    if storedTitle.Some? then storedTitle
    else if p.albumTitle.Some? then p.albumTitle
    else p.title
  }

  /** The playback state every sink gets from an `update`: playing exactly when the rate is positive. */
  function StateForRate(rate: real): (s: PlaybackState)
    ensures s == Playing <==> rate > 0.0
    ensures s != Playing ==> s == Paused
  {
    if rate > 0.0 then Playing else Paused
  }

  /** The record after the main-queue block of `update(...)`. */
  function Updated(p: Record, storedTitle: Option<string>, storedAuthor: Option<string>, t: Tick): (r: Record)
    ensures r.duration == Some(t.duration) && r.elapsed == Some(t.currentTime)
    ensures r.playbackRate == Some(t.rate) && r.defaultPlaybackRate == Some(t.defaultRate)
    // chapter number and count travel together: both written, or both cleared
    ensures t.chapterNumber.Some? && t.chapterCount.Some? ==>
      r.chapterNumber == t.chapterNumber && r.chapterCount == t.chapterCount
    ensures t.chapterNumber.None? || t.chapterCount.None? ==> r.chapterNumber.None? && r.chapterCount.None?
    // the chapter name never reaches the title
    ensures r.title == TickTitle(p, storedTitle)
    ensures r.artist == Subtitle(p.artist, storedAuthor, t.chapterName)
    ensures r.identifier == p.identifier && r.albumTitle == p.albumTitle && r.artwork == p.artwork
    ensures r.mediaType == p.mediaType && r.isLiveStream == p.isLiveStream
  {
    var chapters := t.chapterNumber.Some? && t.chapterCount.Some?;
    p.(
      duration := Some(t.duration),
      elapsed := Some(t.currentTime),
      playbackRate := Some(t.rate),
      defaultPlaybackRate := Some(t.defaultRate),
      chapterNumber := if chapters then t.chapterNumber else None,
      chapterCount := if chapters then t.chapterCount else None,
      title := TickTitle(p, storedTitle),
      artist := Subtitle(p.artist, storedAuthor, t.chapterName))
  }

  /** The record after the artwork callback's main-queue block: only the artwork changes. */
  function WithArtwork(p: Record, a: Artwork): (r: Record)
    ensures r.artwork == Some(a)
    ensures r.(artwork := p.artwork) == p
  {
    p.(artwork := Some(a))
  }

  /** Re-publishing the same session twice in a row is the same as once. */
  lemma WithSessionIdempotent(p: Record, m: Metadata)
    ensures WithSession(WithSession(p, m), m) == WithSession(p, m)
  {
  }

  /** Replaying the same tick changes nothing further. */
  lemma UpdatedIdempotent(p: Record, storedTitle: Option<string>, storedAuthor: Option<string>, t: Tick)
    ensures Updated(Updated(p, storedTitle, storedAuthor, t), storedTitle, storedAuthor, t)
         == Updated(p, storedTitle, storedAuthor, t)
  {
  }

  /**
   * Once a session is published, a tick yields the same record whatever the
   * previous session left behind, artwork aside: no stale title or artist
   * can survive the switch.
   */
  lemma NoStaleFieldsAfterSwitch(p1: Record, p2: Record, m: Metadata, t: Tick)
    ensures var r1 := Updated(WithSession(p1, m), Some(m.title), m.author, t);
            var r2 := Updated(WithSession(p2, m), Some(m.title), m.author, t);
            r1.(artwork := None) == r2.(artwork := None)
  {
  }

  /** The artwork merge and a tick touch disjoint fields, so their order does not matter. */
  lemma ArtworkCommutesWithUpdate(p: Record, a: Artwork, storedTitle: Option<string>, storedAuthor: Option<string>, t: Tick)
    ensures Updated(WithArtwork(p, a), storedTitle, storedAuthor, t) == WithArtwork(Updated(p, storedTitle, storedAuthor, t), a)
  {
  }

  /** The artwork merge and a new session's metadata do not commute: the order decides the artwork. */
  lemma ArtworkRacesWithNewSession(p: Record, a: Artwork, m: Metadata)
    requires p.identifier != Some(m.id)
    ensures WithSession(WithArtwork(p, a), m).artwork.None?
    ensures WithArtwork(WithSession(p, m), a).artwork == Some(a)
  {
  }

  /** An artwork download that completes after `reset` republishes a record that is not empty. */
  lemma ArtworkAfterReset(a: Artwork)
    ensures WithArtwork(EmptyRecord, a) != EmptyRecord
  {
  }

  /** Example: author "Jane Doe", chapter "Intro". */
  lemma SubtitleExample(current: Option<string>)
    ensures Subtitle(current, Some("Jane Doe"), Some("Intro")) == Some("Jane Doe \U{00B7} Intro")
    ensures Subtitle(current, Some("Jane Doe"), None) == Some("Jane Doe")
  {
    assert NonEmpty(Some("Intro")) && NonEmpty(Some("Jane Doe"));
    assert "Jane Doe" + " \U{00B7} " + "Intro" == "Jane Doe \U{00B7} Intro";
  }

  /** An external now-playing sink (`MPNowPlayingInfoCenter`). */
  class InfoCenter {
    var nowPlayingInfo: Option<Record>
    var playbackState: PlaybackState

    constructor ()
      ensures nowPlayingInfo.None? && playbackState == Unknown
    {
      nowPlayingInfo := None;
      playbackState := Unknown;
    }
  }

  class NowPlayingInfo {
    var info: Record
    var storedTitle: Option<string>
    var storedAuthor: Option<string>
    /** The playback session's info center, when one is registered. */
    var sessionCenter: InfoCenter?
    /** `MPNowPlayingInfoCenter.default()` */
    const defaultCenter: InfoCenter

    constructor (defaultCenter: InfoCenter)
      ensures this.defaultCenter == defaultCenter
      ensures info == EmptyRecord && storedTitle.None? && storedAuthor.None? && sessionCenter == null
    {
      this.defaultCenter := defaultCenter;
      info := EmptyRecord;
      storedTitle := None;
      storedAuthor := None;
      sessionCenter := null;
    }

    /** Every registered sink shows the current record. */
    ghost predicate Published()
      reads this, defaultCenter, sessionCenter
    {
      && defaultCenter.nowPlayingInfo == Some(info)
      && (sessionCenter != null ==> sessionCenter.nowPlayingInfo == Some(info))
    }

    /** Every registered sink is in playback state `s`. */
    ghost predicate InState(s: PlaybackState)
      reads this, defaultCenter, sessionCenter
    {
      && defaultCenter.playbackState == s
      && (sessionCenter != null ==> sessionCenter.playbackState == s)
    }

    /** Registers the session's info center; nothing is written to it until the next push. */
    method SetInfoCenter(center: InfoCenter)
      modifies this`sessionCenter
      ensures sessionCenter == center
    {
      sessionCenter := center;
    }

    /** Writes the record to the default sink, then to the secondary one if it is another object. */
    method PushInfoToSystem()
      modifies defaultCenter, sessionCenter
      ensures Published()
      ensures defaultCenter.playbackState == old(defaultCenter.playbackState)
      ensures sessionCenter != null ==> sessionCenter.playbackState == old(sessionCenter.playbackState)
    {
      defaultCenter.nowPlayingInfo := Some(info);
      if sessionCenter != null && sessionCenter != defaultCenter {
        sessionCenter.nowPlayingInfo := Some(info);
      }
    }

    /** Sets the playback state on the default sink, then on the secondary one if it is another object. */
    method SetPlaybackState(s: PlaybackState)
      modifies defaultCenter, sessionCenter
      ensures InState(s)
      ensures defaultCenter.nowPlayingInfo == old(defaultCenter.nowPlayingInfo)
      ensures sessionCenter != null ==> sessionCenter.nowPlayingInfo == old(sessionCenter.nowPlayingInfo)
    {
      defaultCenter.playbackState := s;
      if sessionCenter != null && sessionCenter != defaultCenter {
        sessionCenter.playbackState := s;
      }
    }

    /**
     * Replaces the projection for a new session and marks every sink playing.
     * Returns the cover URL whose download is started (the artwork arrives
     * later through `ArtworkLoaded`).
     */
    method SetSessionMetadata(m: Metadata, env: StoreState, localMatch: Option<LocalItem>) returns (coverRequest: Option<string>)
      modifies this`info, this`storedTitle, this`storedAuthor, defaultCenter, sessionCenter
      ensures coverRequest == CoverUrl(m, env, localMatch)
      ensures storedTitle == Some(m.title) && storedAuthor == m.author
      ensures info == WithSession(old(info), m)
      ensures Published() && InState(Playing)
    {
      coverRequest := CoverUrl(m, env, localMatch);
      storedTitle := Some(m.title);
      storedAuthor := m.author;
      info := WithSession(info, m);
      PushInfoToSystem();
      SetPlaybackState(Playing);
    }

    /** The completion of the cover download: merges the artwork only, then pushes. */
    method ArtworkLoaded(image: Option<Image>)
      modifies this`info, defaultCenter, sessionCenter
      ensures image.None? ==> info == old(info) && unchanged(defaultCenter)
      ensures image.None? && sessionCenter != null ==> unchanged(sessionCenter)
      ensures image.Some? ==> info == WithArtwork(old(info), Artwork(image.value)) && Published()
      ensures defaultCenter.playbackState == old(defaultCenter.playbackState)
      ensures sessionCenter != null ==> sessionCenter.playbackState == old(sessionCenter.playbackState)
    {
      if image.Some? {
        info := WithArtwork(info, Artwork(image.value));
        PushInfoToSystem();
      }
    }

    /** A playback tick: new times and rate, chapter context, and the playback state for the rate. */
    method Update(t: Tick)
      modifies this`info, defaultCenter, sessionCenter
      ensures info == Updated(old(info), storedTitle, storedAuthor, t)
      ensures Published() && InState(StateForRate(t.rate))
    {
      info := Updated(info, storedTitle, storedAuthor, t);
      SetPlaybackState(StateForRate(t.rate));
      PushInfoToSystem();
    }

    /** Clears the projection, stops every sink and forgets the secondary sink. */
    method Reset()
      modifies this, defaultCenter, sessionCenter
      ensures info == EmptyRecord && storedTitle.None? && storedAuthor.None? && sessionCenter == null
      ensures defaultCenter.nowPlayingInfo.None? && defaultCenter.playbackState == Stopped
      ensures old(sessionCenter) != null ==>
        old(sessionCenter).nowPlayingInfo.None? && old(sessionCenter).playbackState == Stopped
    {
      storedTitle := None;
      storedAuthor := None;
      info := EmptyRecord;
      defaultCenter.nowPlayingInfo := None;
      defaultCenter.playbackState := Stopped;
      if sessionCenter != null {
        sessionCenter.nowPlayingInfo := None;
        sessionCenter.playbackState := Stopped;
      }
      sessionCenter := null;
    }
  }
}
