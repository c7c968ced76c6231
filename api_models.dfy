/**
 * The decoded server responses the CarPlay browser works with, and the
 * computed properties it reads from them. JSON decoding itself is not
 * modelled: each struct is a value with its optional fields.
 */
module ApiModels {
  import opened Wrappers

  datatype LibraryItemMetadata = LibraryItemMetadata(title: Option<string>, authorName: Option<string>)

  datatype LibraryItemMedia = LibraryItemMedia(metadata: Option<LibraryItemMetadata>)

  /** `media?.metadata?.title` */
  function MediaTitle(media: Option<LibraryItemMedia>): (r: Option<string>)
    ensures r.Some? ==> media.Some? && media.value.metadata.Some? && media.value.metadata.value.title == r
    ensures media.Some? && media.value.metadata.Some? ==> r == media.value.metadata.value.title
  {
    match media
    case None => None
    case Some(m) =>
      match m.metadata
      case None => None
      case Some(md) => md.title
  }

  /** `media?.metadata?.authorName` */
  function MediaAuthor(media: Option<LibraryItemMedia>): (r: Option<string>)
    ensures r.Some? ==> media.Some? && media.value.metadata.Some? && media.value.metadata.value.authorName == r
    ensures media.Some? && media.value.metadata.Some? ==> r == media.value.metadata.value.authorName
  {
    match media
    case None => None
    case Some(m) =>
      match m.metadata
      case None => None
      case Some(md) => md.authorName
  }

  datatype LibraryItemResult = LibraryItemResult(id: string, mediaType: Option<string>, media: Option<LibraryItemMedia>) {

    function Title(): (r: Option<string>)
      ensures media.None? ==> r.None?
      ensures r.Some? ==> media.Some? && media.value.metadata.Some?
    {
      MediaTitle(media)
    }

    function AuthorName(): (r: Option<string>)
      ensures media.None? ==> r.None?
      ensures r.Some? ==> media.Some? && media.value.metadata.Some?
    {
      MediaAuthor(media)
    }
  }

  datatype ItemRecentEpisode = ItemRecentEpisode(id: Option<string>, title: Option<string>)

  datatype ItemInProgress = ItemInProgress(
    id: string,
    mediaType: Option<string>,
    media: Option<LibraryItemMedia>,
    recentEpisode: Option<ItemRecentEpisode>)
  {
    function Title(): (r: Option<string>)
      ensures media.None? ==> r.None?
      ensures r.Some? ==> media.Some? && media.value.metadata.Some?
    {
      MediaTitle(media)
    }

    function AuthorName(): (r: Option<string>)
      ensures media.None? ==> r.None?
      ensures r.Some? ==> media.Some? && media.value.metadata.Some?
    {
      MediaAuthor(media)
    }

    /** The response carries no progress of its own: always 0. */
    function Progress(): (r: real)
      ensures r == 0.0
    {
      0.0
    }

    /** `recentEpisode?.id`: absent when there is no recent episode, and also when it has no id. */
    function EpisodeId(): (r: Option<string>)
      ensures r.Some? <==> recentEpisode.Some? && recentEpisode.value.id.Some?
      ensures r.Some? ==> r == recentEpisode.value.id
    {
      match recentEpisode
      case None => None
      case Some(e) => e.id
    }

    function EpisodeTitle(): (r: Option<string>)
      ensures r.Some? <==> recentEpisode.Some? && recentEpisode.value.title.Some?
      ensures r.Some? ==> r == recentEpisode.value.title
    {
      match recentEpisode
      case None => None
      case Some(e) => e.title
    }

    /** The recent episode's title if it has one, else the media title, else "Unknown". */
    function DisplayTitle(): (r: string)
      ensures recentEpisode.Some? && recentEpisode.value.title.Some? ==> r == recentEpisode.value.title.value
      ensures (recentEpisode.None? || recentEpisode.value.title.None?) && Title().Some? ==> r == Title().value
      ensures (recentEpisode.None? || recentEpisode.value.title.None?) && Title().None? ==> r == "Unknown"
    {
      match EpisodeTitle()
      case Some(t) => t
      case None => Title().GetOr("Unknown")
    }
  }

  /**
   * An in-progress item can name a recent episode (and show that episode's
   * title) while `EpisodeId()` is absent, because the episode has no id.
   */
  lemma EpisodeWithoutId(item: ItemInProgress)
    requires item.recentEpisode == Some(ItemRecentEpisode(None, Some("Episode 7")))
    ensures item.EpisodeId().None?
    ensures item.DisplayTitle() == "Episode 7"
  {
  }
}
