/**
 * The CarPlay cover-art loader: a cache of downloaded covers keyed by item
 * id, the server cover URL, and the download whose successful result is
 * cached. The download is split into the request (`Fetch`) and its
 * completion (`FetchCompleted`).
 */
module ImageLoader {
  import opened Wrappers
  import opened AppStore
  import NowPlaying

  /** What a load does first: answer from the cache, give up without a URL, or download. */
  datatype LoadStep = Cached(image: Image) | NoUrl | Fetch(url: string, cacheKey: string)

  /** `coverURL(for:)`: nothing without a server configuration. */
  function CoverUrlFor(libraryItemId: string, env: StoreState): (url: Option<string>)
    ensures url.None? <==> env.serverConfig.None?
    ensures url.Some? ==> url.value == NowPlaying.ServerCoverUrl(env.serverConfig.value, libraryItemId, env.serverAtLeast2170)
  {
    match env.serverConfig
    case None => None
    case Some(config) => Some(NowPlaying.ServerCoverUrl(config, libraryItemId, env.serverAtLeast2170))
  }

  /** The CarPlay lists and the now-playing projection use the same URL for a server item. */
  lemma CoverUrlAgreesWithNowPlaying(m: NowPlaying.Metadata, env: StoreState, localMatch: Option<LocalItem>)
    requires !m.isLocal
    ensures NowPlaying.CoverUrl(m, env, localMatch) == CoverUrlFor(m.itemId, env)
  {
  }

  /** The first step of loading a server item's cover with `cache` as it is. */
  function ServerLoadStep(cache: map<string, Image>, libraryItemId: string, env: StoreState): (r: LoadStep)
    ensures libraryItemId in cache <==> r.Cached?
    ensures r.Cached? ==> r.image == cache[libraryItemId]
    ensures r.NoUrl? <==> libraryItemId !in cache && env.serverConfig.None?
    ensures r.Fetch? ==> Some(r.url) == CoverUrlFor(libraryItemId, env) && r.cacheKey == libraryItemId
  {
    if libraryItemId in cache then Cached(cache[libraryItemId])
    else match CoverUrlFor(libraryItemId, env)
      case None => NoUrl
      case Some(url) => Fetch(url, libraryItemId)
  }

  /** The first step of loading a downloaded item's cover: its own URL, keyed by its local id. */
  function LocalLoadStep(cache: map<string, Image>, item: LocalItem): (r: LoadStep)
    ensures item.id in cache <==> r.Cached?
    ensures r.Cached? ==> r.image == cache[item.id]
    ensures r.NoUrl? <==> item.id !in cache && item.coverUrl.None?
    ensures r.Fetch? ==> Some(r.url) == item.coverUrl && r.cacheKey == item.id
  {
    if item.id in cache then Cached(cache[item.id])
    else match item.coverUrl
      case None => NoUrl
      case Some(url) => Fetch(url, item.id)
  }

  /** The cache after a download for `key` finished with `image`: only a success is kept. */
  function AfterFetch(cache: map<string, Image>, key: string, image: Option<Image>): (r: map<string, Image>)
    ensures image.None? ==> r == cache
    ensures image.Some? ==> key in r && r[key] == image.value
    ensures forall k | k != key :: (k in r <==> k in cache) && (k in r ==> r[k] == cache[k])
  {
    if image.Some? then cache[key := image.value] else cache
  }

  /** After a successful download the next load of the same item is answered from the cache, without a request. */
  lemma SuccessfulFetchIsCached(cache: map<string, Image>, libraryItemId: string, env: StoreState, image: Image)
    requires ServerLoadStep(cache, libraryItemId, env).Fetch?
    ensures
      var key := ServerLoadStep(cache, libraryItemId, env).cacheKey;
      ServerLoadStep(AfterFetch(cache, key, Some(image)), libraryItemId, env) == Cached(image)
  {
  }

  /** A failed download leaves the next load asking again. */
  lemma FailedFetchIsRetried(cache: map<string, Image>, libraryItemId: string, env: StoreState)
    requires ServerLoadStep(cache, libraryItemId, env).Fetch?
    ensures
      var step := ServerLoadStep(cache, libraryItemId, env);
      ServerLoadStep(AfterFetch(cache, step.cacheKey, None), libraryItemId, env) == step
  {
  }

  /** Server and local loads share one cache: a local item whose id is cached gets that image, wherever it came from. */
  lemma SharedCacheKey(cache: map<string, Image>, item: LocalItem, env: StoreState)
    requires item.id in cache
    ensures LocalLoadStep(cache, item) == ServerLoadStep(cache, item.id, env) == Cached(cache[item.id])
  {
  }

  class CarPlayImageLoader {
    var cache: map<string, Image>

    constructor ()
      ensures cache == map[]
    {
      cache := map[];
    }

    /** `loadCoverArt(for:)`, up to the download request. */
    method LoadCoverArt(libraryItemId: string, env: StoreState) returns (step: LoadStep)
      ensures step == ServerLoadStep(cache, libraryItemId, env)
    {
      if libraryItemId in cache {
        return Cached(cache[libraryItemId]);
      }
      var url := CoverUrlFor(libraryItemId, env);
      if url.None? {
        return NoUrl;
      }
      step := Fetch(url.value, libraryItemId);
    }

    /** `loadLocalCoverArt(for:)`, up to the download request. */
    method LoadLocalCoverArt(item: LocalItem) returns (step: LoadStep)
      ensures step == LocalLoadStep(cache, item)
    {
      if item.id in cache {
        return Cached(cache[item.id]);
      }
      if item.coverUrl.None? {
        return NoUrl;
      }
      step := Fetch(item.coverUrl.value, item.id);
    }

    /** The download for `key` finished; the completion receives `image` whatever happened. */
    method FetchCompleted(key: string, image: Option<Image>) returns (delivered: Option<Image>)
      modifies this`cache
      ensures cache == AfterFetch(old(cache), key, image)
      ensures delivered == image
    {
      if image.Some? {
        cache := cache[key := image.value];
      }
      delivered := image;
    }
  }
}
