# CarPlay playback and now-playing core, modelled in Dafny

This project models the playback-session and now-playing layer under the
audiobookshelf iOS CarPlay integration, and proves properties of that model.
It covers these parts:

- **The now-playing projection** (`NowPlaying`). One record of optional
  fields: identity, rate, default rate, duration, elapsed time, title, artist,
  album, artwork, chapter number and count, media type and live flag. A new
  session's metadata replaces the record, a playback tick updates it, and
  `reset` clears it. The artwork download's callback merges only the artwork.
  Every write goes to the default info center, and also to a secondary one if
  it is registered and is another object.
- **The session lifecycle** (`Player`). The store of sessions is a map keyed
  by id. There is at most one current player. `StartPlayback` and
  `StopPlayback` replace or drop the player. The cleanup deactivates the other
  active sessions of the current server connection.
- **The CarPlay entry points** (`PlaybackManager`). If the item already
  plays, the manager only shows Now Playing. Otherwise it requests a session,
  saves it, and then starts it. A poll then pushes Now Playing once audio
  really comes out, or after 15 s.
- **The CarPlay scene** (`SceneDelegate`). A cold-start retry waits for the
  server configuration: at most 10 retries, the n-th after n × 500 ms. A guard
  keeps Now Playing from being pushed twice. The scene also builds the chapter
  list and the speed list.
- **Supporting rules**. These are the cover-art cache and the cover URL
  (`ImageLoader`), the Continue Listening rows and their progress
  (`ContinueListening`), and the computed fields of the API models
  (`ApiModels`). `Text` renders numbers the way Swift's `String(format:)` and
  `Int(...)` do. `AppStore` holds the server configuration and the downloaded
  items.

Every main-queue block is one atomic method. Each callback that arrives later
is its own method: the session request's answer, the artwork download, a
timer firing and a delayed push. External frameworks are fields or
parameters:

- the info centers are objects with two fields;
- the interface controller is a template stack;
- the audio player is an object that records the commands it receives;
- the database is the session map plus the list of downloaded items;
- the server configuration and "server is at least 2.17.0" are a `StoreState`
  value;
- a store write that can fail takes a `saveSucceeds` flag.

Three behaviours of the code are easy to get wrong. The model follows the
code in each case:

- A second connect while a cold-start retry is still pending schedules
  another one. Retries can therefore run side by side, up to the budget of 10
  per scene (`pendingRetries` counts them).
- A late artwork callback from an earlier session merges its image into the
  current session's record. One that arrives after `reset` publishes a record
  that holds only the artwork (`ArtworkRacesWithNewSession`,
  `ArtworkAfterReset`).
- A stored session without a library item id traps at the force-unwrap in
  `startPlayback`. This happens after the new player has been created. The
  model makes it the outcome `CrashedOnMissingItemId` rather than a
  precondition.

## Model

| member | source | states |
|---|---|---|
| NowPlaying.ServerCoverUrl | ios/App/Shared/util/NowPlayingInfo.swift:31-39 | the URL starts with `address/api/items/{id}/cover`; it is exactly that for servers at 2.17.0 or later, and older servers get `?token=` and the token appended |
| NowPlaying.CoverUrl | ios/App/Shared/util/NowPlayingInfo.swift:24-41 | a local item uses its downloaded item's cover URL, or none if no downloaded item matches; a server item has none without a configuration, else the server cover URL |
| NowPlaying.ShouldFetchCover | ios/App/Shared/util/NowPlayingInfo.swift:220-222 | no fetch exactly when the record already shows this identifier with artwork |
| NowPlaying.WithSession | ios/App/Shared/util/NowPlayingInfo.swift:73-104 | both rates are the session rate; duration, elapsed and identity are the session's; title and album are the title; artist is the author or "unknown"; not live; audio; artwork kept only when the identifier is unchanged; chapter fields untouched |
| NowPlaying.Subtitle | ios/App/Shared/util/NowPlayingInfo.swift:171-180 | chapter and author both non-empty: "author · chapter"; chapter only: the chapter; no chapter: the stored author, or the artist unchanged without one |
| NowPlaying.TickTitle | ios/App/Shared/util/NowPlayingInfo.swift:164-169 | the stored book title, else the album title, else unchanged; never the chapter name |
| NowPlaying.StateForRate | ios/App/Shared/util/NowPlayingInfo.swift:154 | playing exactly when the rate is positive, paused otherwise |
| NowPlaying.Updated | ios/App/Shared/util/NowPlayingInfo.swift:148-180 | new times and rates; chapter number and count written together or both cleared; title and artist by the rules above; identity, album, artwork, media type and live flag kept |
| NowPlaying.WithArtwork | ios/App/Shared/util/NowPlayingInfo.swift:126-141 | the artwork is set and every other field is as before |
| NowPlaying.WithSessionIdempotent | ios/App/Shared/util/NowPlayingInfo.swift:73-104 | re-publishing the same session changes nothing further |
| NowPlaying.UpdatedIdempotent | ios/App/Shared/util/NowPlayingInfo.swift:148-180 | replaying the same tick changes nothing further |
| NowPlaying.NoStaleFieldsAfterSwitch | ios/App/Shared/util/NowPlayingInfo.swift:73-180 | after a new session and a tick, the record (artwork aside) does not depend on what the previous session left |
| NowPlaying.ArtworkCommutesWithUpdate | ios/App/Shared/util/NowPlayingInfo.swift:126-180 | the artwork merge and a tick can run in either order with the same result |
| NowPlaying.ArtworkRacesWithNewSession | ios/App/Shared/util/NowPlayingInfo.swift:91-93 | for another item, artwork merged before the new session is cleared, and artwork merged after it stays |
| NowPlaying.ArtworkAfterReset | ios/App/Shared/util/NowPlayingInfo.swift:126-141 | artwork that arrives after `reset` makes the record non-empty again |
| NowPlaying.SubtitleExample | ios/App/Shared/util/NowPlayingInfo.swift:171-180 | author "Jane Doe" with chapter "Intro" gives "Jane Doe · Intro", and without a chapter gives "Jane Doe" |
| NowPlaying.NowPlayingInfo.constructor | ios/App/Shared/util/NowPlayingInfo.swift:57-59 | an empty record, no stored title or author, no secondary center |
| NowPlaying.NowPlayingInfo.SetInfoCenter | ios/App/Shared/util/NowPlayingInfo.swift:63-66 | registers the secondary center |
| NowPlaying.NowPlayingInfo.PushInfoToSystem | ios/App/Shared/util/NowPlayingInfo.swift:203-209 | both centers hold the record afterwards, and their playback states are untouched |
| NowPlaying.NowPlayingInfo.SetPlaybackState | ios/App/Shared/util/NowPlayingInfo.swift:212-218 | both centers have the new state, and their info is untouched |
| NowPlaying.NowPlayingInfo.SetSessionMetadata | ios/App/Shared/util/NowPlayingInfo.swift:68-143 | the record becomes `WithSession`, the title and author are stored, the record is published and every center is playing; returns the cover URL to download |
| NowPlaying.NowPlayingInfo.ArtworkLoaded | ios/App/Shared/util/NowPlayingInfo.swift:126-141 | a failed download changes nothing; an image is merged with `WithArtwork` and published; the playback states are untouched |
| NowPlaying.NowPlayingInfo.Update | ios/App/Shared/util/NowPlayingInfo.swift:145-184 | the record becomes `Updated`, is published, and every center gets the state for the rate |
| NowPlaying.NowPlayingInfo.Reset | ios/App/Shared/util/NowPlayingInfo.swift:186-200 | empty record, no stored title or author, both centers have no info and are stopped, and the secondary center is forgotten |
| Player.CleanedUp | ios/App/Shared/player/PlayerHandler.swift:167-184 | same keys; every active session of the scope except the current one is deactivated; everything else is unchanged |
| Player.CleanupLeavesAtMostOneActive | ios/App/Shared/player/PlayerHandler.swift:167-184 | after starting `cur`, at most one session of its scope is active |
| Player.CleanupWithoutCurrentDeactivatesAll | ios/App/Shared/player/PlayerHandler.swift:46-52 | stopping without an id leaves no active session in the scope |
| Player.CleanupIdempotent | ios/App/Shared/player/PlayerHandler.swift:167-184 | running the cleanup twice is the same as once |
| Player.FindLocalItem | ios/App/App/CarPlay/CarPlayPlaybackManager.swift:65-68 | the first downloaded item with the local id, or none exactly when no item has it |
| Player.FindLocalItemByServerId | ios/App/Shared/util/NowPlayingInfo.swift:26 | a downloaded item of that server item, or none exactly when no item has that server id |
| Player.SessionMetadata | ios/App/Shared/player/PlayerHandler.swift:43 | the session's id, item id, duration and current time, the given rate, and the title or "Unknown title" |
| Player.PlayerHandler.CurrentSession | ios/App/Shared/player/PlayerHandler.swift:119-123 | the current player's session, or none without a player |
| Player.PlayerHandler.Paused | ios/App/Shared/player/PlayerHandler.swift:54-58 | true without a player, else true exactly when the rate is 0 |
| Player.PlayerHandler.IsAudioActuallyPlaying | ios/App/Shared/player/PlayerHandler.swift:70-73 | true exactly when there is a player whose time-control status is playing, whatever the rate |
| Player.PlayerHandler.Metadata | ios/App/Shared/player/PlayerHandler.swift:150-159 | present exactly for an initialized player; a missing duration or current time reads as 0 |
| Player.PlayerHandler.ResetPlayer | ios/App/Shared/player/PlayerHandler.swift:186-191 | the old player is destroyed and logged, and no player is left |
| Player.PlayerHandler.CleanupOldSessions | ios/App/Shared/player/PlayerHandler.swift:167-184 | the loop leaves the store equal to `CleanedUp` of the old store |
| Player.PlayerHandler.StartPlayback | ios/App/Shared/player/PlayerHandler.swift:15-44 | an unknown id changes nothing; otherwise the old player is destroyed before the audio session and the new player, the scope is cleaned up, and the new player has the session, rate and play-when-ready; with an item id the session's metadata is published and every center is playing; the secondary center stays registered whatever the outcome |
| Player.PlayerHandler.CreatePlayer | ios/App/Shared/player/PlayerHandler.swift:29-43 | the audio session is activated before the new player is created; the player has the session, rate and play-when-ready; the metadata is published with every center playing exactly when the session has an item id, and otherwise the projection and its centers are unchanged |
| Player.PlayerHandler.StopPlayback | ios/App/Shared/player/PlayerHandler.swift:46-52 | the old player is paused and destroyed, no player is left, the scope is cleaned up and the projection is reset |
| Player.PlayerHandler.SetPaused | ios/App/Shared/player/PlayerHandler.swift:59-65 | sends pause, or play allowing a seek back; no other player field changes |
| Player.PlayerHandler.SetPlaybackSpeed | ios/App/Shared/player/PlayerHandler.swift:83-85 | sends the rate to the player; no other player field changes |
| Player.PlayerHandler.SeekForward | ios/App/Shared/player/PlayerHandler.swift:125-132 | seeks to the time before the call + amount; does nothing unless the player is initialized and knows its time; no other player field changes |
| Player.PlayerHandler.SeekBackward | ios/App/Shared/player/PlayerHandler.swift:134-141 | seeks to the time before the call − amount; does nothing unless the player is initialized and knows its time; no other player field changes |
| Player.PlayerHandler.Seek | ios/App/Shared/player/PlayerHandler.swift:143-148 | seeks to the given time; does nothing unless the player is initialized; no other player field changes |
| PlaybackManager.PollTick | ios/App/App/CarPlay/CarPlayPlaybackManager.swift:91-114 | pushes as confirmed exactly when audio plays with info, pushes as timed out exactly when it does not and 15 s are reached, and otherwise keeps polling 300 ms later |
| PlaybackManager.PushTickIsFirstStop | ios/App/App/CarPlay/CarPlayPlaybackManager.swift:91-114 | a poll pushes at the first tick that sees audio with info or reaches the timeout, and never if no tick does |
| PlaybackManager.PushWithinTimeout | ios/App/App/CarPlay/CarPlayPlaybackManager.swift:87-89 | a fresh poll always pushes within 50 ticks |
| PlaybackManager.PushNoLaterThanConfirmation | ios/App/App/CarPlay/CarPlayPlaybackManager.swift:103-107 | a fresh poll pushes no later than the first tick that sees audio with info |
| PlaybackManager.EarlyPushMeansAudio | ios/App/App/CarPlay/CarPlayPlaybackManager.swift:103-113 | a push before the 50th tick always saw audio playing with info |
| PlaybackManager.Stamped | ios/App/App/CarPlay/CarPlayPlaybackManager.swift:40-41 | the session carries the current config id and address, and nothing else changes |
| PlaybackManager.PlaybackManager.ScheduleNowPlayingPush | ios/App/App/CarPlay/CarPlayPlaybackManager.swift:85-90 | any running poll is replaced by a fresh one |
| PlaybackManager.PlaybackManager.PollTimerFired | ios/App/App/CarPlay/CarPlayPlaybackManager.swift:91-114 | follows `PollTick` on the player's status and the default center's info; a push stops the poll and applies the Now Playing guard |
| PlaybackManager.PlaybackManager.PlayServerItem | ios/App/App/CarPlay/CarPlayPlaybackManager.swift:17-32 | if the item (and episode, when asked) already plays, only Now Playing is shown; otherwise a request is sent with the rate read now |
| PlaybackManager.PlaybackManager.ServerSessionStarted | ios/App/App/CarPlay/CarPlayPlaybackManager.swift:32-51 | an empty id or a failed save changes nothing (the handler, its player, the now-playing projection and its centers, the store and the poll are all unchanged); otherwise the stamped session is saved and started with play-when-ready, and the poll starts when playback starts |
| PlaybackManager.PlaybackManager.SaveAndStart | ios/App/App/CarPlay/CarPlayPlaybackManager.swift:44-47 | the saved session is found, the scope is cleaned up around it, the new player plays it at the given rate, and the poll starts exactly when playback starts |
| PlaybackManager.PlaybackManager.PlayLocalItem | ios/App/App/CarPlay/CarPlayPlaybackManager.swift:54-80 | the same short-circuit on the local id; a missing downloaded item or a failed save changes nothing (the handler, its player, the now-playing projection and its centers, the store and the poll are all unchanged); otherwise save, start, poll |
| SceneDelegate.RetryChainShape | ios/App/App/CarPlay/CarPlaySceneDelegate.swift:99-121 | from count c, 10 − c more retries follow, waiting (c+1) × 500 ms, (c+2) × 500 ms, … |
| SceneDelegate.RetryChainTotal | ios/App/App/CarPlay/CarPlaySceneDelegate.swift:99-121 | the remaining retries wait 250 (10 − c)(c + 11) ms in all |
| SceneDelegate.ColdStartBudget | ios/App/App/CarPlay/CarPlaySceneDelegate.swift:21-22 | from a fresh scene, at most 10 retries totalling 27.5 s |
| SceneDelegate.MinSec | ios/App/App/CarPlay/CarPlaySceneDelegate.swift:219-230 | for a non-negative number of seconds, "m:ss" whose minutes × 60 + seconds read back as that number, with two-digit seconds |
| SceneDelegate.ChapterName | ios/App/App/CarPlay/CarPlaySceneDelegate.swift:223 | the chapter title, else "Chapter i+1" |
| SceneDelegate.ChapterRowFor | ios/App/App/CarPlay/CarPlaySceneDelegate.swift:217-246 | current exactly when start ≤ time < end; current rows get "▶ " and "elapsed / length"; other rows show the length; the row seeks to the chapter start |
| SceneDelegate.ChapterRows | ios/App/App/CarPlay/CarPlaySceneDelegate.swift:217 | one row per chapter, in order |
| SceneDelegate.EarlierChapterEndsFirst | ios/App/App/CarPlay/CarPlaySceneDelegate.swift:222 | in ordered chapters every earlier chapter ends before a later one starts |
| SceneDelegate.NotBothCurrent | ios/App/App/CarPlay/CarPlaySceneDelegate.swift:222 | two different ordered chapters are never both current |
| SceneDelegate.RowIsCurrent | ios/App/App/CarPlay/CarPlaySceneDelegate.swift:222 | a row is marked current exactly when its chapter contains the current time |
| SceneDelegate.AtMostOneCurrentRow | ios/App/App/CarPlay/CarPlaySceneDelegate.swift:222 | for ordered, non-overlapping chapters at most one row is current |
| SceneDelegate.RateLabel | ios/App/App/CarPlay/CarPlaySceneDelegate.swift:155-157 | a whole rate as "Nx", otherwise "N.Dx" |
| SceneDelegate.RateLabelRoundTrip | ios/App/App/CarPlay/CarPlaySceneDelegate.swift:155-157 | every label reads back as its own rate, so the presets have distinct labels |
| SceneDelegate.PresetRows | ios/App/App/CarPlay/CarPlaySceneDelegate.swift:152-169 | the seven presets in order, each labelled, and checked exactly when within 0.01 of the current rate |
| SceneDelegate.SlowerRate | ios/App/App/CarPlay/CarPlaySceneDelegate.swift:170-176 | one tenth down, never below 0.1 |
| SceneDelegate.FasterRate | ios/App/App/CarPlay/CarPlaySceneDelegate.swift:178-184 | one tenth up, never above 4.0 |
| SceneDelegate.FineTuneInverse | ios/App/App/CarPlay/CarPlaySceneDelegate.swift:170-184 | inside the clamps, "Slower" undoes "Faster" and the other way round |
| SceneDelegate.FineTuneStaysInRange | ios/App/App/CarPlay/CarPlaySceneDelegate.swift:170-184 | from a rate in [0.1, 4.0], any taps on the two entries stay in that range |
| SceneDelegate.ChosenRate | ios/App/App/CarPlay/CarPlaySceneDelegate.swift:160-184 | a preset gives its own rate; the fine-tune entries step from the rate captured when the list was shown |
| SceneDelegate.WithNowPlaying | ios/App/App/CarPlay/CarPlaySceneDelegate.swift:257-284 | unchanged without an interface or when Now Playing is on top, else Now Playing is pushed |
| SceneDelegate.NowPlayingPushIdempotent | ios/App/App/CarPlay/CarPlaySceneDelegate.swift:264-268 | after a push Now Playing is on top, and a second push changes nothing |
| SceneDelegate.CarPlayScene.RetriesFollowChain | ios/App/App/CarPlay/CarPlaySceneDelegate.swift:107-108 | the retries scheduled so far are the first ones of the fixed chain |
| SceneDelegate.CarPlayScene.ScheduleColdStartRetryIfNeeded | ios/App/App/CarPlay/CarPlaySceneDelegate.swift:99-121 | schedules exactly when the config is missing and fewer than 10 were scheduled; the counter rises by 1 and the delay is counter × 500 ms |
| SceneDelegate.CarPlayScene.ReloadAllProviders | ios/App/App/CarPlay/CarPlaySceneDelegate.swift:89-95 | the providers reload exactly when they are attached |
| SceneDelegate.CarPlayScene.ColdStartRetryFired | ios/App/App/CarPlay/CarPlaySceneDelegate.swift:111-120 | with the config, reload and schedule nothing; without it, go through the same gate again, and a rescheduled retry replaces the one that fired (the pending count is unchanged and its delay is appended) |
| SceneDelegate.CarPlayScene.PushNowPlaying | ios/App/App/CarPlay/CarPlaySceneDelegate.swift:257-284 | the stack becomes `WithNowPlaying` of the old stack |
| SceneDelegate.CarPlayScene.PopTemplate | ios/App/App/CarPlay/CarPlaySceneDelegate.swift:165 | removes the top template only when it is above the root |
| SceneDelegate.CarPlayScene.DidConnect | ios/App/App/CarPlay/CarPlaySceneDelegate.swift:26-74 | the root tab bar, providers reloaded, the cold-start gate run, and a delayed Now Playing push exactly when a session exists and is not paused |
| SceneDelegate.CarPlayScene.DeferredNowPlayingPushFired | ios/App/App/CarPlay/CarPlaySceneDelegate.swift:70-72 | the delayed push applies the Now Playing guard |
| SceneDelegate.CarPlayScene.DidDisconnect | ios/App/App/CarPlay/CarPlaySceneDelegate.swift:76-87 | no interface, no providers, no config observer |
| SceneDelegate.CarPlayScene.ServerConfigDidChange | ios/App/App/CarPlay/CarPlaySceneDelegate.swift:63 | reloads the providers only while the scene is observing and they are attached |
| SceneDelegate.CarPlayScene.ShowChapterList | ios/App/App/CarPlay/CarPlaySceneDelegate.swift:203-253 | pushes the chapter rows of the current session; nothing without a session or without chapters |
| SceneDelegate.CarPlayScene.SelectChapterRow | ios/App/App/CarPlay/CarPlaySceneDelegate.swift:241-246 | seeks to the chapter's start (nothing is sent to an uninitialized player) and pops the list; with no interface or only the root, the stack is unchanged; no other player field changes |
| SceneDelegate.CarPlayScene.ShowSpeedSelectionList | ios/App/App/CarPlay/CarPlaySceneDelegate.swift:150-191 | pushes the preset rows for the settings' rate and captures that rate |
| SceneDelegate.CarPlayScene.SelectSpeed | ios/App/App/CarPlay/CarPlaySceneDelegate.swift:162-199 | stores the chosen rate (preset, or ±0.1 from the rate captured when the list was shown) in the settings, sends it to the player and pops the list; with no interface or only the root, the stack is unchanged; no other player field changes |
| ImageLoader.CoverUrlFor | ios/App/App/CarPlay/CarPlayImageLoader.swift:65-76 | none without a configuration, else the server cover URL |
| ImageLoader.CoverUrlAgreesWithNowPlaying | ios/App/App/CarPlay/CarPlayImageLoader.swift:65-76 | for a server item the loader and the now-playing projection use the same URL |
| ImageLoader.ServerLoadStep | ios/App/App/CarPlay/CarPlayImageLoader.swift:21-41 | a cache hit answers with the cached image; otherwise no URL means nil, and a URL means a download keyed by the item id |
| ImageLoader.LocalLoadStep | ios/App/App/CarPlay/CarPlayImageLoader.swift:43-63 | the same for a downloaded item, with its own cover URL and its local id |
| ImageLoader.AfterFetch | ios/App/App/CarPlay/CarPlayImageLoader.swift:33-36 | only a downloaded image is stored, under its key; other keys are untouched |
| ImageLoader.SuccessfulFetchIsCached | ios/App/App/CarPlay/CarPlayImageLoader.swift:22-36 | after a successful download the next load is a cache hit |
| ImageLoader.FailedFetchIsRetried | ios/App/App/CarPlay/CarPlayImageLoader.swift:22-36 | after a failed download the next load downloads again |
| ImageLoader.SharedCacheKey | ios/App/App/CarPlay/CarPlayImageLoader.swift:15-26 | server and local loads share one cache keyed by the id string |
| ImageLoader.CarPlayImageLoader.LoadCoverArt | ios/App/App/CarPlay/CarPlayImageLoader.swift:21-41 | follows `ServerLoadStep` on the current cache |
| ImageLoader.CarPlayImageLoader.LoadLocalCoverArt | ios/App/App/CarPlay/CarPlayImageLoader.swift:43-63 | follows `LocalLoadStep` on the current cache |
| ImageLoader.CarPlayImageLoader.FetchCompleted | ios/App/App/CarPlay/CarPlayImageLoader.swift:33-40 | the cache becomes `AfterFetch`, and the completion gets the result either way |
| ContinueListening.FirstForItem | ios/App/App/CarPlay/CarPlayContinueListeningProvider.swift:62 | the first entry for the item, or none exactly when there is none |
| ContinueListening.FirstForEpisode | ios/App/App/CarPlay/CarPlayContinueListeningProvider.swift:67 | the first entry for both the item and the episode, or none exactly when there is none |
| ContinueListening.ProgressByItemKeepsFirst | ios/App/App/CarPlay/CarPlayContinueListeningProvider.swift:62 | the dictionary holds an item exactly when the list does, and holds its first entry |
| ContinueListening.ItemProgressMatches | ios/App/App/CarPlay/CarPlayContinueListeningProvider.swift:65-70 | a book row uses its item's first entry; an episode row uses the first entry for that episode and never falls back to a book-level entry; without an entry, 0 |
| ContinueListening.EpisodeWithoutIdUsesItemProgress | ios/App/App/CarPlay/CarPlayContinueListeningProvider.swift:66-70 | a recent episode without an id makes the row a book row |
| ContinueListening.Percent | ios/App/App/CarPlay/CarPlayContinueListeningProvider.swift:71 | the percentage truncated, and between 0 and 100 for progress between 0 and 1 |
| ContinueListening.DetailAsWritten | ios/App/App/CarPlay/CarPlayContinueListeningProvider.swift:73-77 | the author followed by the garbled separator, as written |
| ContinueListening.Detail | ios/App/App/CarPlay/CarPlayContinueListeningProvider.swift:73-77 | the author and " · " before the percentage, or the percentage alone |
| ContinueListening.GarbledSeparator | ios/App/App/CarPlay/CarPlayContinueListeningProvider.swift:74 | with an author the detail as written shows a stray "Â"; without one the two agree |
| ContinueListening.DetailReadsBack | ios/App/App/CarPlay/CarPlayContinueListeningProvider.swift:71-77 | the detail ends in "% complete", and the digits before that read back as the percentage |
| ContinueListening.RowFor | ios/App/App/CarPlay/CarPlayContinueListeningProvider.swift:64-87 | the display title, the detail for the resolved progress (with the corrected separator), and the item and episode to play |
| ContinueListening.Rows | ios/App/App/CarPlay/CarPlayContinueListeningProvider.swift:62-99 | one row per item, in input order |
| ContinueListening.ContinueListeningProvider.Reload | ios/App/App/CarPlay/CarPlayContinueListeningProvider.swift:25-52 | without a configuration: empty, "Not Connected" and "Open the app to sign in"; otherwise both requests are sent |
| ContinueListening.ContinueListeningProvider.FetchesCompleted | ios/App/App/CarPlay/CarPlayContinueListeningProvider.swift:54-100 | no items: empty, "Nothing in Progress" and "Start listening to an audiobook"; otherwise one section of `Rows` |
| ContinueListening.ContinueListeningProvider.SelectRow | ios/App/App/CarPlay/CarPlayContinueListeningProvider.swift:82-87 | plays the row's item and episode from the server: Now Playing is pushed (under its guard) when the item already plays, otherwise a session is requested with the current rate and the stack is unchanged |
| ApiModels.MediaTitle | ios/App/App/CarPlay/CarPlayAPIModels.swift:40 | the metadata title, and nil whenever the media or its metadata is absent |
| ApiModels.MediaAuthor | ios/App/App/CarPlay/CarPlayAPIModels.swift:41 | the metadata author, and nil whenever the media or its metadata is absent |
| ApiModels.LibraryItemResult.Title | ios/App/App/CarPlay/CarPlayAPIModels.swift:40 | nil without media; present only with media and metadata |
| ApiModels.LibraryItemResult.AuthorName | ios/App/App/CarPlay/CarPlayAPIModels.swift:41 | nil without media; present only with media and metadata |
| ApiModels.ItemInProgress.Title | ios/App/App/CarPlay/CarPlayAPIModels.swift:65 | nil without media; present only with media and metadata |
| ApiModels.ItemInProgress.AuthorName | ios/App/App/CarPlay/CarPlayAPIModels.swift:66 | nil without media; present only with media and metadata |
| ApiModels.ItemInProgress.Progress | ios/App/App/CarPlay/CarPlayAPIModels.swift:67 | always 0 |
| ApiModels.ItemInProgress.EpisodeId | ios/App/App/CarPlay/CarPlayAPIModels.swift:68 | present exactly when there is a recent episode with an id |
| ApiModels.ItemInProgress.EpisodeTitle | ios/App/App/CarPlay/CarPlayAPIModels.swift:69 | present exactly when there is a recent episode with a title |
| ApiModels.ItemInProgress.DisplayTitle | ios/App/App/CarPlay/CarPlayAPIModels.swift:71-76 | the episode title, else the media title, else "Unknown" |
| ApiModels.EpisodeWithoutId | ios/App/App/CarPlay/CarPlayAPIModels.swift:68-82 | a recent episode with a title but no id gives no episode id but still the episode's title |

## Left out

- Sleep timer (ios/App/Shared/player/PlayerHandler.swift:91-113): these calls only forward to the audio player, whose code is not part of this model.
- Other forwarders: `getCurrentTime`, `getPlayWhenReady`, `setChapterTrack`, `getPlayMethod` and `updateRemoteTransportControls` only call into the audio player.
- The audio player itself: it is an object whose status fields the engine sets. The model records the commands it receives and does not simulate playback.
- The audio-session category and activation calls: these are logged as one `AudioSessionActivation` step. Their errors are not modelled.
- Realm: transactions and queries are the session map and the downloaded-item list. A failed write during the cleanup is not modelled. Save failures in the CarPlay entry points are a flag.
- `getPlaybackSession(episode:)` of a downloaded item is not part of this model. `PlaybackManager.PlaybackManager.PlayLocalItem` takes the session it builds as a parameter.
- Player settings: the rate write in `applyPlaybackSpeed` is taken to succeed.
- Network requests (`ApiClient`): each request is the value a method returns, and its answer is the input of a later method. How both Continue Listening requests are joined with a dispatch group is not modelled.
- `URL(string:)`: it can fail on a malformed string. The model keeps the string.
- Cache eviction: the image cache is a map that never evicts. `ImageLoader.SuccessfulFetchIsCached` holds only until eviction, which the count limit of 100 can cause.
- Setting the downloaded image on a list row, and the cover-art loads the providers start, are not modelled.
- Floating point: times and rates are exact reals; the rate is `Float` in the source. Presets are tenths, and the preset check and the clamps use exact arithmetic.
- PlaybackManager.PollTick: the timeout is in whole milliseconds. Adding 0.3 s in `Double` may reach 15.0 s one tick late.
- `String(format: "Current: %.1fx")` on the fine-tune rows, and the list titles and images, are not modelled.
- Library and Downloads providers, `AppDelegate`, the Now Playing button setup and `CarPlaySceneDelegate.shared` are not modelled. The manager holds the scene directly. A disconnected scene ignores pushes, as a missing shared scene does.
- Weak references: the model keeps every object alive.
- ContinueListening.RowFor: the rows, and so `Rows` and `FetchesCompleted`, use the corrected separator " · " (`Detail`), not the garbled literal the source shows (`DetailAsWritten`); the difference is stated under "## Findings".
- SceneDelegate.CarPlayScene.SelectSpeed: `capturedRate` is a parameter. It stands for the rate the list captured when it was shown, which is the `capturedRate` of the `SpeedList` template that `ShowSpeedSelectionList` pushed; the model does not tie the tapped row to a template on the stack.
- Logging (`NSLog`, `AbsLogger`) and the completion results of template pushes and pops are not modelled.

## Findings

| source | as written | input that shows it | evidently intended | confidence | as-written member | corrected member |
|---|---|---|---|---|---|---|
| ios/App/App/CarPlay/CarPlayContinueListeningProvider.swift:74 | the separator literal is "Â·", which is the UTF-8 bytes of a middle dot read as Latin-1 | an item with author "Ann" at 50 % shows "Ann Â· 50% complete" | "Ann · 50% complete", with the separator the now-playing subtitle uses | high, not executed | ContinueListening.DetailAsWritten | ContinueListening.Detail |
