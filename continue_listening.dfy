/**
 * The "Continue Listening" tab: the in-progress items with their progress,
 * matched against the user's media-progress list, and the empty-list
 * messages. The two server requests run together; `Reload` says whether
 * they were sent and `FetchesCompleted` is what runs once both answered.
 */
module ContinueListening {
  import opened Wrappers
  import opened Text
  import ApiModels
  import Player
  import PlaybackManager
  import SceneDelegate

  /** One entry of the user's media-progress list. */
  datatype MediaProgress = MediaProgress(libraryItemId: string, episodeId: Option<string>, progress: real)

  /** The first entry for library item `itemId`, whatever its episode. */
  function FirstForItem(list: seq<MediaProgress>, itemId: string): (r: Option<MediaProgress>)
    ensures r.None? <==> forall i | 0 <= i < |list| :: list[i].libraryItemId != itemId
    ensures r.Some? ==> exists i | 0 <= i < |list| ::
      && list[i] == r.value && list[i].libraryItemId == itemId
      && forall j | 0 <= j < i :: list[j].libraryItemId != itemId
  {
    if list == [] then None
    else if list[0].libraryItemId == itemId then Some(list[0])
    else
      var r := FirstForItem(list[1..], itemId);
      assert forall j | 1 <= j < |list| :: list[j] == list[1..][j - 1];
      r
  }

  /** The first entry for episode `episodeId` of library item `itemId`. */
  function FirstForEpisode(list: seq<MediaProgress>, itemId: string, episodeId: string): (r: Option<MediaProgress>)
    ensures r.None? <==> forall i | 0 <= i < |list| :: !(list[i].libraryItemId == itemId && list[i].episodeId == Some(episodeId))
    ensures r.Some? ==> exists i | 0 <= i < |list| ::
      && list[i] == r.value && list[i].libraryItemId == itemId && list[i].episodeId == Some(episodeId)
      && forall j | 0 <= j < i :: !(list[j].libraryItemId == itemId && list[j].episodeId == Some(episodeId))
  {
    if list == [] then None
    else if list[0].libraryItemId == itemId && list[0].episodeId == Some(episodeId) then Some(list[0])
    else
      var r := FirstForEpisode(list[1..], itemId, episodeId);
      assert forall j | 1 <= j < |list| :: list[j] == list[1..][j - 1];
      r
  }

  /** The dictionary keyed by library item id; on a repeated key the earlier entry wins. */
  function ProgressByItem(list: seq<MediaProgress>): map<string, MediaProgress> {
    if list == [] then map[] else ProgressByItem(list[1..])[list[0].libraryItemId := list[0]]
  }

  /** The dictionary holds exactly the first entry of every item in the list. */
  lemma {:induction false} ProgressByItemKeepsFirst(list: seq<MediaProgress>, itemId: string)
    ensures itemId in ProgressByItem(list) <==> FirstForItem(list, itemId).Some?
    ensures itemId in ProgressByItem(list) ==> ProgressByItem(list)[itemId] == FirstForItem(list, itemId).value
    decreases |list|
  {
    if list != [] && list[0].libraryItemId != itemId {
      ProgressByItemKeepsFirst(list[1..], itemId);
    }
  }

  /** The progress shown for `item`: episode rows look for their episode, other rows for the item; else the item's own. */
  function ItemProgress(item: ApiModels.ItemInProgress, list: seq<MediaProgress>): real {
    match item.EpisodeId()
    case Some(ep) =>
      (match FirstForEpisode(list, item.id, ep)
       case Some(p) => p.progress
       case None => item.Progress())
    case None =>
      var byItem := ProgressByItem(list);
      if item.id in byItem then byItem[item.id].progress else item.Progress()
  }

  /**
   * Book rows use the item's first entry; episode rows use the first entry for
   * that episode and never fall back to a book-level entry.
   */
  lemma ItemProgressMatches(item: ApiModels.ItemInProgress, list: seq<MediaProgress>)
    ensures item.EpisodeId().None? && FirstForItem(list, item.id).Some? ==>
      ItemProgress(item, list) == FirstForItem(list, item.id).value.progress
    ensures item.EpisodeId().Some? && FirstForEpisode(list, item.id, item.EpisodeId().value).Some? ==>
      ItemProgress(item, list) == FirstForEpisode(list, item.id, item.EpisodeId().value).value.progress
    ensures FirstForItem(list, item.id).None? ==> ItemProgress(item, list) == 0.0
    ensures item.EpisodeId().Some? && FirstForEpisode(list, item.id, item.EpisodeId().value).None? ==>
      ItemProgress(item, list) == 0.0
  {
    ProgressByItemKeepsFirst(list, item.id);
    if item.EpisodeId().Some? && FirstForItem(list, item.id).None? {
      assert FirstForEpisode(list, item.id, item.EpisodeId().value).None?;
    }
  }

  /**
   * A recent episode without an id makes the row a book row: it takes the
   * item's first progress entry even when that entry is for another episode.
   */
  lemma EpisodeWithoutIdUsesItemProgress(item: ApiModels.ItemInProgress, list: seq<MediaProgress>)
    requires item.recentEpisode.Some? && item.recentEpisode.value.id.None?
    requires |list| >= 1 && list[0].libraryItemId == item.id
    ensures ItemProgress(item, list) == list[0].progress
  {
    ProgressByItemKeepsFirst(list, item.id);
  }

  /** `Int(progress * 100)`: the percentage truncated toward zero. */
  function Percent(progress: real): (pct: int)
    ensures 0.0 <= progress <= 1.0 ==> 0 <= pct <= 100
    ensures 0.0 <= progress ==> pct as real <= progress * 100.0 < pct as real + 1.0
  {
    Trunc(progress * 100.0)
  }

  const Separator := " \U{00B7} "
  /** The separator as the source file spells it: the UTF-8 bytes of the middle dot read as Latin-1. */
  const SeparatorAsWritten := " \U{00C2}\U{00B7} "

  /** The row detail as written: author, the garbled separator, and the percentage. */
  function DetailAsWritten(author: Option<string>, pct: int): (d: string)
    ensures author.Some? ==> |d| > |author.value| + |SeparatorAsWritten|
    ensures author.Some? ==> d[..|author.value|] == author.value && d[|author.value| + 1] == '\U{00C2}'
  {
    match author
    case Some(a) => a + SeparatorAsWritten + IntToString(pct) + "% complete"
    case None => IntToString(pct) + "% complete"
  }

  /** The detail as intended: author and percentage joined by the middle dot the now-playing subtitle uses. */
  function Detail(author: Option<string>, pct: int): (d: string)
    ensures author.Some? ==> |d| > |author.value| + |Separator|
    ensures author.Some? ==> d[..|author.value| + |Separator|] == author.value + Separator
    ensures author.None? ==> d == IntToString(pct) + "% complete"
  {
    match author
    case Some(a) => a + Separator + IntToString(pct) + "% complete"
    case None => IntToString(pct) + "% complete"
  }

  /** With an author the detail as written shows a stray 'Â' before the dot. */
  lemma GarbledSeparator()
    ensures DetailAsWritten(Some("Ann"), 50) != Detail(Some("Ann"), 50)
    ensures DetailAsWritten(Some("Ann"), 50)[4] == '\U{00C2}'
    ensures DetailAsWritten(None, 50) == Detail(None, 50)
  {
    assert Detail(Some("Ann"), 50)[4] == '\U{00B7}';
  }

  /** The corrected detail reads back: the author, then the percentage as digits, then "% complete". */
  lemma DetailReadsBack(author: Option<string>, pct: nat)
    ensures
      var d := Detail(author, pct);
      var prefix := if author.Some? then |author.value| + |Separator| else 0;
      var digits := d[prefix..|d| - |"% complete"|];
      && prefix <= |d| - |"% complete"|
      && d[|d| - |"% complete"|..] == "% complete"
      && AllDigits(digits) && ParseNat(digits) == pct
  {
    var d := Detail(author, pct);
    var num := IntToString(pct);
    if author.Some? {
      assert d == (author.value + Separator) + num + "% complete";
      assert d[|author.value| + |Separator|..|d| - |"% complete"|] == num;
    } else {
      assert d[0..|d| - |"% complete"|] == num;
    }
  }

  /** A row of the list; selecting it plays `libraryItemId` (and the episode). */
  datatype Row = Row(text: string, detail: string, libraryItemId: string, episodeId: Option<string>)

  function RowFor(item: ApiModels.ItemInProgress, list: seq<MediaProgress>): (r: Row)
    ensures r.text == item.DisplayTitle()
    ensures r.detail == Detail(item.AuthorName(), Percent(ItemProgress(item, list)))
    ensures r.libraryItemId == item.id && r.episodeId == item.EpisodeId()
  {
    Row(item.DisplayTitle(), Detail(item.AuthorName(), Percent(ItemProgress(item, list))), item.id, item.EpisodeId())
  }

  /** One row per in-progress item, in the server's order. */
  function Rows(items: seq<ApiModels.ItemInProgress>, list: seq<MediaProgress>): (rows: seq<Row>)
    ensures |rows| == |items|
    ensures forall i | 0 <= i < |items| :: rows[i] == RowFor(items[i], list)
  {
    seq(|items|, i requires 0 <= i < |items| => RowFor(items[i], list))
  }

  class ContinueListeningProvider {
    /** The list template's sections. */
    var sections: seq<seq<Row>>
    var emptyTitle: Option<string>
    var emptySubtitle: Option<string>

    constructor ()
      ensures sections == [] && emptyTitle.None? && emptySubtitle.None?
    {
      sections := [];
      emptyTitle := None;
      emptySubtitle := None;
    }

    /** `reload()`: without a server configuration shows "Not Connected", otherwise sends both requests. */
    method Reload(configPresent: bool) returns (fetching: bool)
      modifies this
      ensures fetching == configPresent
      ensures !configPresent ==>
        sections == [] && emptyTitle == Some("Not Connected") && emptySubtitle == Some("Open the app to sign in")
      ensures configPresent ==>
        sections == old(sections) && emptyTitle == old(emptyTitle) && emptySubtitle == old(emptySubtitle)
    {
      if !configPresent {
        sections := [];
        emptyTitle := Some("Not Connected");
        emptySubtitle := Some("Open the app to sign in");
        return false;
      }
      fetching := true;
    }

    /** `updateTemplate(with:progressList:)`: both answers are in. */
    method FetchesCompleted(items: seq<ApiModels.ItemInProgress>, progressList: seq<MediaProgress>)
      modifies this
      ensures items == [] ==>
        sections == [] && emptyTitle == Some("Nothing in Progress") && emptySubtitle == Some("Start listening to an audiobook")
      ensures items != [] ==>
        sections == [Rows(items, progressList)] && emptyTitle == old(emptyTitle) && emptySubtitle == old(emptySubtitle)
    {
      if items == [] {
        sections := [];
        emptyTitle := Some("Nothing in Progress");
        emptySubtitle := Some("Start listening to an audiobook");
        return;
      }
      sections := [Rows(items, progressList)];
    }

    /** Selecting a row plays that item (and episode) from the server. */
    method SelectRow(row: Row, manager: PlaybackManager.PlaybackManager, settings: Player.PlayerSettings)
      returns (request: Option<PlaybackManager.SessionRequest>)
      requires manager.scene.Valid()
      modifies manager.scene`stack
      ensures manager.scene.Valid()
      ensures !PlaybackManager.PlaysServerItem(manager.handler.CurrentSession(), row.libraryItemId, row.episodeId) ==>
        request == Some(PlaybackManager.SessionRequest(row.libraryItemId, row.episodeId, settings.playbackRate))
      ensures PlaybackManager.PlaysServerItem(manager.handler.CurrentSession(), row.libraryItemId, row.episodeId) ==>
        request.None? && manager.scene.stack == SceneDelegate.WithNowPlaying(manager.scene.connected, old(manager.scene.stack))
      ensures !PlaybackManager.PlaysServerItem(manager.handler.CurrentSession(), row.libraryItemId, row.episodeId) ==>
        manager.scene.stack == old(manager.scene.stack)
    {
      request := manager.PlayServerItem(row.libraryItemId, row.episodeId, settings);
    }
  }
}
