# RiMusic screen logic, modelled in Dafny

This project models the decision logic of RiMusic, an Android music client for YouTube Music.
It covers the part of the app that sits between the catalog service, the local library and
the player. That logic decides when a screen fetches a page, what it writes to the library,
which calls a click makes on the player, and what a list shows. Rendering is not modelled.

Modules, one per source file (plus four shared ones):

- `Wrappers`: Kotlin's nullable types and `kotlin.Result`.
- `Innertube`: the catalog value types the screens read (pages, song items, endpoints) and
  the requests they send.
- `Library`: the Room entities the screens build. Every database call is recorded, in order,
  as a `DbOp`. `ApplyToRows` gives the playlist-membership calls their meaning, and
  `SongsOf` reads a playlist's songs back.
- `PlayerService`: the calls on the player service binder, recorded as `PlayerCall`s. With
  no bound service no call is made.
- `Utils` (Utils.kt):
  - the thumbnail URL rewrite;
  - `completed`, the continuation flattener, as a loop proved against a recursive
    specification;
  - `onFirst`.
- `ItemsPageScreen` (ItemsPage.kt): the infinite-scroll grid. It covers the stored page, how
  each provider answer changes it, the keys the grid shows, and the `loading0` trigger.
- `MainActivity`: how links are classified and handled, and when the player sheet opens.
- `ArtistScreen`, `AlbumScreen`, `PlaylistScreen`, `LocalPlaylistScreen`: each is a class
  holding the screen's state and database-call log. Each also has pure specifications of its
  fetch gate, the rows it writes, its providers and its buttons.
- `QuickPicks`: when the related page is refetched, the quick-picks list, the display states
  and a click.
- `BuiltInPlaylistSongs`: the Favorites and Offline lists, and the shuffle, enqueue and
  song-click buttons.

Catalog requests, the media cache, clocks and the shuffle's random order are parameters.
Functions stand for the catalog answers; `now` stands for the clock.

## Model

| member | source | states |
|---|---|---|
| PlayerService.IfBound | app/src/main/kotlin/it/vfsfitvnm/vimusic/ui/screens/artist/ArtistScreen.kt:236-238 | with a bound service the calls are made as listed; with none, no call is made |
| Innertube.ItemsOrEmpty | app/src/main/kotlin/app/vitune/android/utils/Utils.kt:152 | a page's items, or nothing when the page or its item list is missing |
| Innertube.SongIds | app/src/main/kotlin/it/vfsfitvnm/vimusic/ui/screens/album/AlbumScreen.kt:94 | one media id per song, in order, each the song's key |
| Innertube.ListedSongIds | app/src/main/kotlin/it/vfsfitvnm/vimusic/ui/screens/playlist/PlaylistScreen.kt:167-168 | a list exists exactly when the page, its songs page and its items exist, and it is their media ids |
| Library.ToggledBookmark | app/src/main/kotlin/it/vfsfitvnm/vimusic/ui/screens/artist/ArtistScreen.kt:129-130 | an unbookmarked entity is bookmarked at `now`; a bookmarked one is unbookmarked |
| Library.ToggledBookmarkTwice | app/src/main/kotlin/it/vfsfitvnm/vimusic/ui/screens/album/AlbumScreen.kt:127-133 | two clicks undo a bookmark; on a bookmarked entity, two clicks re-bookmark it at the second click's time |
| Library.PlaylistRows | app/src/main/kotlin/it/vfsfitvnm/vimusic/ui/screens/playlist/PlaylistScreen.kt:170-176 | one membership row per song, for that playlist, at the song's index |
| Library.SongsOfPlaylistRows | app/src/main/kotlin/it/vfsfitvnm/vimusic/ui/screens/playlist/PlaylistScreen.kt:170-176 | reading back the rows built for a playlist gives its songs in order |
| Library.OtherRowsClears | app/src/main/kotlin/it/vfsfitvnm/vimusic/ui/screens/localplaylist/LocalPlaylistScreen.kt:111 | clearing a playlist leaves it with no songs and every other playlist with its songs |
| Library.InsertSongs | app/src/main/kotlin/it/vfsfitvnm/vimusic/ui/screens/album/AlbumScreen.kt:94-95 | one song insert per media id, in order |
| Library.InsertEach | app/src/main/kotlin/it/vfsfitvnm/vimusic/ui/screens/album/AlbumScreen.kt:95 | the `onEach(Database::insert)` loop appends exactly `InsertSongs` of the ids to the calls so far |
| Library.InsertsThenMaps | app/src/main/kotlin/it/vfsfitvnm/vimusic/ui/screens/album/AlbumScreen.kt:91-102 | the songs' inserts, then rows over those songs, keep every row's song inserted before the row |
| Library.AddSongsOpsEffect | app/src/main/kotlin/it/vfsfitvnm/vimusic/ui/screens/playlist/PlaylistScreen.kt:167-176 | adding listed songs appends them, in list order, to the playlist and to no other; each row's song is inserted first; with no list nothing is added |
| Utils.CoerceAtMost | app/src/main/kotlin/app/vitune/android/utils/Utils.kt:134 | the result is the smaller of size and maxSize |
| Utils.ParseIntString | app/src/main/kotlin/app/vitune/android/utils/Utils.kt:136 | the decimal text of an Int is well formed and reads back as the same number |
| Utils.IntStringInjective | app/src/main/kotlin/app/vitune/android/utils/Utils.kt:136 | distinct numbers render as distinct texts |
| Utils.SizeSuffix | app/src/main/kotlin/app/vitune/android/utils/Utils.kt:135-138 | the rendition suffix for a URL of either image host, none for other URLs |
| Utils.Thumbnail | app/src/main/kotlin/app/vitune/android/utils/Utils.kt:130-140 | null stays null; a URL is only ever extended; URLs of other hosts are returned unchanged |
| Utils.HostsExclusive | app/src/main/kotlin/app/vitune/android/utils/Utils.kt:136-137 | no URL starts with both image hosts, so the order of the two branches does not matter |
| Utils.ThumbnailSuffix | app/src/main/kotlin/app/vitune/android/utils/Utils.kt:134-137 | the suffix is `-w<n>-h<n>` on lh3.googleusercontent and `-w<n>-h<n>-s<n>` on yt3.ggpht, with n = min(size, maxSize) |
| Utils.ThumbnailSizesDistinguished | app/src/main/kotlin/app/vitune/android/utils/Utils.kt:134-137 | on both hosts, different effective sizes give different URLs |
| Utils.Usable | app/src/main/kotlin/app/vitune/android/utils/Utils.kt:162-163 | a response is kept only when it is present with a non-empty item list |
| Utils.StopsAt | app/src/main/kotlin/app/vitune/android/utils/Utils.kt:163-165 | the loop stops at a response that is not usable, or, with dedup, that repeats a song already gathered |
| Utils.WalkFrom | app/src/main/kotlin/app/vitune/android/utils/Utils.kt:157-169 | the loop from a state: the songs gathered, the continuations requested, and how many responses were accepted, with `maxDepth - depth` requests left |
| Utils.WalkRequestBound | app/src/main/kotlin/app/vitune/android/utils/Utils.kt:155-157 | the loop makes at most maxDepth requests, none when maxDepth <= 0 or there is no continuation; at most the last one is rejected |
| Utils.WalkSongs | app/src/main/kotlin/app/vitune/android/utils/Utils.kt:152-168 | the songs gathered are the starting songs, then the items of each accepted response in request order |
| Utils.WalkChain | app/src/main/kotlin/app/vitune/android/utils/Utils.kt:157-168 | each request asks for the continuation the previous response handed back; every accepted response was usable and, with dedup, repeated no song |
| Utils.WalkStop | app/src/main/kotlin/app/vitune/android/utils/Utils.kt:157-165 | the loop ends because the last response was rejected, or the cursor chain ended, or the budget ran out |
| Utils.CompletedSpec | app/src/main/kotlin/app/vitune/android/utils/Utils.kt:147-171 | a failure is kept; a page gets as songs the original ones and those the loop gathered, with no continuation; plus the requests made |
| Utils.CompletedFailure | app/src/main/kotlin/app/vitune/android/utils/Utils.kt:150-151 | a failed page stays the same failure and nothing is requested |
| Utils.CompletedFlattens | app/src/main/kotlin/app/vitune/android/utils/Utils.kt:147-171 | a page comes back as a success with no continuation, even when maxDepth cut the loop short, with its other fields unchanged; the request bound holds |
| Utils.CompletedSongs | app/src/main/kotlin/app/vitune/android/utils/Utils.kt:147-171 | the page's songs are the original ones followed by the accepted responses' items; requests follow the cursor chain; the stop reason holds |
| Utils.CompletedScenario | app/src/main/kotlin/app/vitune/android/utils/Utils.kt:165 | on a concrete chain, the duplicate song is kept without dedup, and with dedup the response that repeats it is dropped |
| Utils.Completed | app/src/main/kotlin/app/vitune/android/utils/Utils.kt:147-171 | the `while` loop, with its post-increment depth guard, computes exactly `CompletedSpec` |
| Utils.OnFirstFlow.constructor | app/src/main/kotlin/app/vitune/android/utils/Utils.kt:175 | a new flow has not yet seen an element |
| Utils.OnFirstFlow.Collect | app/src/main/kotlin/app/vitune/android/utils/Utils.kt:174-183 | every element passes through; the block sees only the first element, and only on the first collection that has one |
| ItemsPageScreen.ListLayout | app/src/main/kotlin/it/vfsfitvnm/vimusic/ui/screens/search/ItemsPage.kt:79 | the list layout is used when the tag contains `songs` or `videos` |
| ItemsPageScreen.ContainsAfterPrefix | app/src/main/kotlin/it/vfsfitvnm/vimusic/ui/screens/search/ItemsPage.kt:79 | a piece contained in a text is still contained after a prefix is added |
| ItemsPageScreen.ListLayoutTags | app/src/main/kotlin/it/vfsfitvnm/vimusic/ui/screens/search/ItemsPage.kt:79 | a tag that mentions songs or videos anywhere gets the list layout |
| ItemsPageScreen.ShowsEmptyMessage | app/src/main/kotlin/it/vfsfitvnm/vimusic/ui/screens/search/ItemsPage.kt:101 | the empty message shows when a page is stored and its items are null or empty |
| ItemsPageScreen.ShowsPlaceholders | app/src/main/kotlin/it/vfsfitvnm/vimusic/ui/screens/search/ItemsPage.kt:117 | placeholders show when no page is stored or the page has a continuation |
| ItemsPageScreen.PlaceholderCount | app/src/main/kotlin/it/vfsfitvnm/vimusic/ui/screens/search/ItemsPage.kt:118-121 | the initial count when the items are null or empty, else the continuation count |
| ItemsPageScreen.ItemKeys | app/src/main/kotlin/it/vfsfitvnm/vimusic/ui/screens/search/ItemsPage.kt:95-99 | one key per item, in order, each the item's key |
| ItemsPageScreen.LoadingKeys | app/src/main/kotlin/it/vfsfitvnm/vimusic/ui/screens/search/ItemsPage.kt:120-122 | the placeholders are `loading0` to `loading<count-1>`; none for a count <= 0 |
| ItemsPageScreen.RenderedKeys | app/src/main/kotlin/it/vfsfitvnm/vimusic/ui/screens/search/ItemsPage.kt:95-122 | the grid's keys: the items' keys, then `empty` when the empty message shows, then the placeholders' keys when they show |
| ItemsPageScreen.Apply | app/src/main/kotlin/it/vfsfitvnm/vimusic/ui/screens/search/ItemsPage.kt:64-75 | the stored page and scroll flag after one provider answer |
| ItemsPageScreen.LoadStep | app/src/main/kotlin/it/vfsfitvnm/vimusic/ui/screens/search/ItemsPage.kt:55-77 | one emission: with a provider and `loading0` visible, the provider is asked for the stored continuation and its answer applied; otherwise nothing |
| ItemsPageScreen.Run | app/src/main/kotlin/it/vfsfitvnm/vimusic/ui/screens/search/ItemsPage.kt:58-76 | the stored page after several emissions, and every cursor requested, in order |
| ItemsPageScreen.ApplyCases | app/src/main/kotlin/it/vfsfitvnm/vimusic/ui/screens/search/ItemsPage.kt:63-75 | a null answer or a failure changes nothing; an empty success marks a never-loaded page as loaded and empty; a page is merged, and the grid scrolls to the top exactly when the merge equals the new page |
| ItemsPageScreen.EmptyFirstLoadSettles | app/src/main/kotlin/it/vfsfitvnm/vimusic/ui/screens/search/ItemsPage.kt:65-68 | an empty first answer shows only the empty message and no placeholder, so nothing can load again |
| ItemsPageScreen.LoadNeedsPlaceholders | app/src/main/kotlin/it/vfsfitvnm/vimusic/ui/screens/search/ItemsPage.kt:117-122 | if `loading0` is visible, placeholders are shown, so the page is missing or has a continuation |
| ItemsPageScreen.NoProviderNoLoad | app/src/main/kotlin/it/vfsfitvnm/vimusic/ui/screens/search/ItemsPage.kt:56 | with no provider, no emission requests anything or changes the page |
| ItemsPageScreen.ExhaustedPageStaysPut | app/src/main/kotlin/it/vfsfitvnm/vimusic/ui/screens/search/ItemsPage.kt:58-63 | once a page with no continuation is stored, no emission loads again and the page stays |
| ItemsPageScreen.ItemsPageState.constructor | app/src/main/kotlin/it/vfsfitvnm/vimusic/ui/screens/search/ItemsPage.kt:53 | the grid starts from the page persisted under its tag |
| ItemsPageScreen.ItemsPageState.OnVisibleItems | app/src/main/kotlin/it/vfsfitvnm/vimusic/ui/screens/search/ItemsPage.kt:55-77 | one emission stores the page, returns the request and the scroll flag exactly as `LoadStep` specifies |
| MainActivity.IncomingLink | app/src/main/kotlin/it/vfsfitvnm/vimusic/MainActivity.kt:90 | the link is the intent's data, else its shared text, else nothing |
| MainActivity.QueryParameter | app/src/main/kotlin/it/vfsfitvnm/vimusic/MainActivity.kt:199 | a found value is that of the first pair with that name: the pair is in the query and no earlier pair has the name; nothing is found only when no pair has that name |
| MainActivity.Classify | app/src/main/kotlin/it/vfsfitvnm/vimusic/MainActivity.kt:198-224 | what a link asks for: a `playlist` link opens `VL<list>`, or resolves it as an album when the id starts with `OLAK5uy_`; a `channel` or `c` link opens the artist named by its last segment; a `watch?v=` link, or a youtu.be link, plays that video; anything else does nothing |
| MainActivity.AlbumOfFirstSong | app/src/main/kotlin/it/vfsfitvnm/vimusic/MainActivity.kt:203-205 | the album browse id of the first song of a successful playlist page; nothing for null, a failure, no songs, or a song without an album endpoint |
| MainActivity.Handle | app/src/main/kotlin/it/vfsfitvnm/vimusic/MainActivity.kt:194-233 | the effects of handling a link: a navigation to the playlist, artist or resolved album route, or a play of the song the catalog returns for the video; nothing when a lookup fails |
| MainActivity.ClassifyPlaylist | app/src/main/kotlin/it/vfsfitvnm/vimusic/MainActivity.kt:198-212 | a playlist link with `list=P` opens `VLP`, or resolves it as an album when P starts with `OLAK5uy_`; with no `list` it does nothing |
| MainActivity.ClassifyVideo | app/src/main/kotlin/it/vfsfitvnm/vimusic/MainActivity.kt:220-224 | a video is played exactly for `watch?v=` links and for youtu.be links whose path is not one of the other routes |
| MainActivity.HandleShape | app/src/main/kotlin/it/vfsfitvnm/vimusic/MainActivity.kt:194-233 | a link has at most one effect; navigation goes only to `album/`, `artist/` or `playlist/VL` routes; playback only for video links |
| MainActivity.Activity.constructor | app/src/main/kotlin/it/vfsfitvnm/vimusic/MainActivity.kt:89-94 | the notification flag and the pending link are read from the launching intent; the sheet starts closed |
| MainActivity.Activity.OnNewIntent | app/src/main/kotlin/it/vfsfitvnm/vimusic/MainActivity.kt:240-243 | a new intent's link replaces the pending one by the same rule |
| MainActivity.Activity.OnPlayerAvailable | app/src/main/kotlin/it/vfsfitvnm/vimusic/MainActivity.kt:168-180 | with nothing playing the sheet closes; a closed sheet opens only for a notification launch, which also clears the intent's extras |
| MainActivity.Activity.OnMediaItemTransition | app/src/main/kotlin/it/vfsfitvnm/vimusic/MainActivity.kt:182-187 | a playlist change to an item opens the sheet unless the item was restored from the persistent queue |
| MainActivity.Activity.HandleData | app/src/main/kotlin/it/vfsfitvnm/vimusic/MainActivity.kt:194-236 | a pending link is handled once and then cleared |
| MainActivity.NotificationOpensOnce | app/src/main/kotlin/it/vfsfitvnm/vimusic/MainActivity.kt:175-177 | after the extras are cleared, the intent no longer counts as a notification launch |
| ArtistScreen.MustFetch | app/src/main/kotlin/it/vfsfitvnm/vimusic/ui/screens/artist/ArtistScreen.kt:84-89 | the fetch gate: no page is loaded, and the artist row is missing, was never fetched, or the tab is not the library tab |
| ArtistScreen.FetchedArtist | app/src/main/kotlin/it/vfsfitvnm/vimusic/ui/screens/artist/ArtistScreen.kt:95-103 | the row written after a fetch: the browse id, the page's name and thumbnail URL, `now` as timestamp, and the stored row's bookmark |
| ArtistScreen.MustFetchCases | app/src/main/kotlin/it/vfsfitvnm/vimusic/ui/screens/artist/ArtistScreen.kt:84-89 | nothing is fetched once a page is loaded; a cached artist on the library tab is not fetched; a never-fetched artist, or any tab but the library, is fetched |
| ArtistScreen.FetchedArtistIsCached | app/src/main/kotlin/it/vfsfitvnm/vimusic/ui/screens/artist/ArtistScreen.kt:95-103 | the written row keeps the browse id and the bookmark and has a timestamp, so its echo closes the gate on the library tab |
| ArtistScreen.ShareUrl | app/src/main/kotlin/it/vfsfitvnm/vimusic/ui/screens/artist/ArtistScreen.kt:152 | the channel link `https://music.youtube.com/channel/` followed by the browse id |
| ArtistScreen.ShareUrlOpensArtist | app/src/main/kotlin/it/vfsfitvnm/vimusic/ui/screens/artist/ArtistScreen.kt:152 | the shared link is `music.youtube.com/channel/<id>`, and its parsed form opens the same artist in the app |
| ArtistScreen.ProviderChain | app/src/main/kotlin/it/vfsfitvnm/vimusic/ui/screens/artist/ArtistScreen.kt:196-218 | a tab provider's requests and answer: the continuation request when there is a cursor, then the browse request when that answered null and the endpoint is browsable, then the embedded items |
| ArtistScreen.ProviderChainShape | app/src/main/kotlin/it/vfsfitvnm/vimusic/ui/screens/artist/ArtistScreen.kt:194-219 | a tab provider never answers null; it makes at most two requests, the continuation request first and only with a cursor; a browse request uses the endpoint's id and params, and is made exactly when the endpoint is browsable and there is no cursor or the continuation request answered null (then second); an answer that is not the fallback is the last request's; otherwise it answers with the embedded items |
| ArtistScreen.ProviderChainEmbedded | app/src/main/kotlin/it/vfsfitvnm/vimusic/ui/screens/artist/ArtistScreen.kt:213-218 | with no cursor and no browsable endpoint, the tab shows exactly the embedded items and makes no request |
| ArtistScreen.TabProvider | app/src/main/kotlin/it/vfsfitvnm/vimusic/ui/screens/artist/ArtistScreen.kt:194-220 | a tab has a provider exactly when the artist page is loaded |
| ArtistScreen.SongsTabWaitsForArtistPage | app/src/main/kotlin/it/vfsfitvnm/vimusic/ui/screens/artist/ArtistScreen.kt:194 | before the artist page loads, the songs grid never requests anything and keeps its page |
| ArtistScreen.SongClick | app/src/main/kotlin/it/vfsfitvnm/vimusic/ui/screens/artist/ArtistScreen.kt:235-239 | a click stops the radio, plays the song and starts a radio from the song's endpoint |
| ArtistScreen.ArtistScreenState.constructor | app/src/main/kotlin/it/vfsfitvnm/vimusic/ui/screens/artist/ArtistScreen.kt:76-79 | the screen starts from its persisted row and page, with no calls made |
| ArtistScreen.ArtistScreenState.OnEmission | app/src/main/kotlin/it/vfsfitvnm/vimusic/ui/screens/artist/ArtistScreen.kt:86-107 | the row is stored; the page is requested exactly when the gate is open; a success stores the page and upserts the fetched row |
| ArtistScreen.ArtistScreenState.OnBookmarkClick | app/src/main/kotlin/it/vfsfitvnm/vimusic/ui/screens/artist/ArtistScreen.kt:128-136 | the stored row, if any, is written back with its bookmark toggled |
| ArtistScreen.ArtistScreenState.OnShareClick | app/src/main/kotlin/it/vfsfitvnm/vimusic/ui/screens/artist/ArtistScreen.kt:145-156 | the shared text is the channel link base followed by exactly the browse id |
| AlbumScreen.MustFetch | app/src/main/kotlin/it/vfsfitvnm/vimusic/ui/screens/album/AlbumScreen.kt:71 | the fetch gate: no page is loaded, and the album row is missing, was never fetched, or the tab is "other versions" |
| AlbumScreen.JoinNames | app/src/main/kotlin/it/vfsfitvnm/vimusic/ui/screens/album/AlbumScreen.kt:85-86 | the authors' names joined with no separator, a missing name counting as empty |
| AlbumScreen.AuthorsText | app/src/main/kotlin/it/vfsfitvnm/vimusic/ui/screens/album/AlbumScreen.kt:85-86 | there is an authors text exactly when the page lists authors |
| AlbumScreen.JoinNamesAppend | app/src/main/kotlin/it/vfsfitvnm/vimusic/ui/screens/album/AlbumScreen.kt:86 | joining with no separator distributes over concatenation of the author lists |
| AlbumScreen.JoinNamesSingle | app/src/main/kotlin/it/vfsfitvnm/vimusic/ui/screens/album/AlbumScreen.kt:86 | an author contributes its name, or nothing when it has none |
| AlbumScreen.JoinNamesLength | app/src/main/kotlin/it/vfsfitvnm/vimusic/ui/screens/album/AlbumScreen.kt:86 | the text is as long as all the known names together |
| AlbumScreen.SongAlbumMaps | app/src/main/kotlin/it/vfsfitvnm/vimusic/ui/screens/album/AlbumScreen.kt:96-101 | one row per song, for this album, at the song's page position |
| AlbumScreen.FetchedAlbum | app/src/main/kotlin/it/vfsfitvnm/vimusic/ui/screens/album/AlbumScreen.kt:79-90 | the row written after a fetch: browse id, title, thumbnail URL, year, authors text, share URL, `now` as timestamp, and the stored row's bookmark |
| AlbumScreen.FetchOps | app/src/main/kotlin/it/vfsfitvnm/vimusic/ui/screens/album/AlbumScreen.kt:77-103 | the calls of a successful fetch: clear the album's song rows, insert each song, then upsert the album with one row per song |
| AlbumScreen.FetchOpsShape | app/src/main/kotlin/it/vfsfitvnm/vimusic/ui/screens/album/AlbumScreen.kt:77-103 | a fetch clears the album first and upserts it last; the upsert keeps the bookmark and closes the gate; its rows follow page order and refer only to songs inserted before |
| AlbumScreen.AlternativesProvider | app/src/main/kotlin/it/vfsfitvnm/vimusic/ui/screens/album/AlbumScreen.kt:189-198 | there is a provider exactly when the album page is loaded |
| AlbumScreen.AlternativesIgnoreCursor | app/src/main/kotlin/it/vfsfitvnm/vimusic/ui/screens/album/AlbumScreen.kt:189-198 | the provider ignores its cursor and always answers the other versions with no continuation |
| AlbumScreen.AlternativesLoadOnce | app/src/main/kotlin/it/vfsfitvnm/vimusic/ui/screens/album/AlbumScreen.kt:185-198 | assuming the merge keeps a page merged into nothing (`plus(None, p) == p`), the first load stores the other versions with no continuation, so the grid loads no more |
| AlbumScreen.AlbumScreenState.constructor | app/src/main/kotlin/it/vfsfitvnm/vimusic/ui/screens/album/AlbumScreen.kt:59-60 | the screen starts from its persisted row and page, with no calls made |
| AlbumScreen.AlbumScreenState.OnEmission | app/src/main/kotlin/it/vfsfitvnm/vimusic/ui/screens/album/AlbumScreen.kt:68-108 | the row is stored; the page is requested exactly when the gate is open; a success stores the page and makes exactly the `FetchOps` calls |
| AlbumScreen.AlbumScreenState.OnBookmarkClick | app/src/main/kotlin/it/vfsfitvnm/vimusic/ui/screens/album/AlbumScreen.kt:125-135 | the stored row, if any, is written back with its bookmark toggled |
| AlbumScreen.AlbumScreenState.OnShareClick | app/src/main/kotlin/it/vfsfitvnm/vimusic/ui/screens/album/AlbumScreen.kt:147 | the stored row's share URL is sent; nothing is sent when there is no row or no URL |
| PlaylistScreen.SkipLoad | app/src/main/kotlin/it/vfsfitvnm/vimusic/ui/screens/playlist/PlaylistScreen.kt:64 | the load is skipped when a page is stored and its songs have no continuation |
| PlaylistScreen.LoadedPage | app/src/main/kotlin/it/vfsfitvnm/vimusic/ui/screens/playlist/PlaylistScreen.kt:66-69 | the `completed` page of a successful answer, or nothing for null or a failure |
| PlaylistScreen.LoadedPageSettles | app/src/main/kotlin/it/vfsfitvnm/vimusic/ui/screens/playlist/PlaylistScreen.kt:64-69 | a load stores nothing when the request answers null or fails, and otherwise a page with no continuation that the next visit skips |
| PlaylistScreen.RemovePrefix | app/src/main/kotlin/it/vfsfitvnm/vimusic/ui/screens/playlist/PlaylistScreen.kt:113-115 | one leading `VL` is dropped when present; otherwise the id is unchanged |
| PlaylistScreen.ShareUrl | app/src/main/kotlin/it/vfsfitvnm/vimusic/ui/screens/playlist/PlaylistScreen.kt:111-116 | the page's own URL, else the playlist link with the browse id minus its `VL` prefix |
| PlaylistScreen.ShareUrlOfLinkedPlaylist | app/src/main/kotlin/it/vfsfitvnm/vimusic/ui/screens/playlist/PlaylistScreen.kt:111-116 | a playlist opened from a link with `list=P` shares a link with the same `list=P` when the page has no URL |
| PlaylistScreen.ImportOps | app/src/main/kotlin/it/vfsfitvnm/vimusic/ui/screens/playlist/PlaylistScreen.kt:158-177 | the calls of an import: insert the named playlist row with the browse id, then add the page's songs to it |
| PlaylistScreen.ImportOpsShape | app/src/main/kotlin/it/vfsfitvnm/vimusic/ui/screens/playlist/PlaylistScreen.kt:158-177 | an import inserts the playlist row first with the chosen name and the browse id; each row's song is inserted first; the new playlist then lists exactly the page's songs in order |
| PlaylistScreen.PlaylistScreenState.constructor | app/src/main/kotlin/it/vfsfitvnm/vimusic/ui/screens/playlist/PlaylistScreen.kt:61 | the screen starts from its persisted page |
| PlaylistScreen.PlaylistScreenState.Load | app/src/main/kotlin/it/vfsfitvnm/vimusic/ui/screens/playlist/PlaylistScreen.kt:63-70 | unless skipped, the page is requested and completed, and the completed page, or null, is stored; the continuation requests are those of `completed`, and none when the request answers null |
| PlaylistScreen.PlaylistScreenState.Import | app/src/main/kotlin/it/vfsfitvnm/vimusic/ui/screens/playlist/PlaylistScreen.kt:157-179 | the dialog's "done" makes exactly the `ImportOps` calls |
| LocalPlaylistScreen.SyncOffered | app/src/main/kotlin/it/vfsfitvnm/vimusic/ui/screens/localplaylist/LocalPlaylistScreen.kt:98 | the sync entry is offered when a playlist is shown and its browse id is present and not empty |
| LocalPlaylistScreen.SyncOps | app/src/main/kotlin/it/vfsfitvnm/vimusic/ui/screens/localplaylist/LocalPlaylistScreen.kt:110-124 | the calls of a sync with the remote page in hand: clear the playlist, then add the remote songs |
| LocalPlaylistScreen.SyncSpec | app/src/main/kotlin/it/vfsfitvnm/vimusic/ui/screens/localplaylist/LocalPlaylistScreen.kt:100-127 | the whole sync: nothing without a browse id or when the remote playlist does not load; otherwise the sync calls on the `completed` remote page |
| LocalPlaylistScreen.SyncReplaces | app/src/main/kotlin/it/vfsfitvnm/vimusic/ui/screens/localplaylist/LocalPlaylistScreen.kt:110-124 | after a sync the playlist lists exactly the remote songs in remote order; other playlists are unchanged; each row's song is inserted first |
| LocalPlaylistScreen.SyncFailureUntouched | app/src/main/kotlin/it/vfsfitvnm/vimusic/ui/screens/localplaylist/LocalPlaylistScreen.kt:101-110 | with no browse id, or a remote playlist that does not load, a sync makes no call and the playlist keeps its songs |
| LocalPlaylistScreen.SyncLoaded | app/src/main/kotlin/it/vfsfitvnm/vimusic/ui/screens/localplaylist/LocalPlaylistScreen.kt:100-127 | a sync whose remote playlist loads leaves the playlist listing the songs `completed` gathered, in order |
| LocalPlaylistScreen.DeleteConfirmedAsWritten | app/src/main/kotlin/it/vfsfitvnm/vimusic/ui/screens/localplaylist/LocalPlaylistScreen.kt:183-188 | the deletion as written: the shown playlist is deleted and the screen is not left |
| LocalPlaylistScreen.DeleteConfirmed | app/src/main/kotlin/it/vfsfitvnm/vimusic/ui/screens/localplaylist/LocalPlaylistScreen.kt:183-188 | the corrected deletion: the shown playlist is deleted and the screen is left |
| LocalPlaylistScreen.DeleteAsWrittenShowsDeleted | app/src/main/kotlin/it/vfsfitvnm/vimusic/ui/screens/localplaylist/LocalPlaylistScreen.kt:183-188 | as written, confirming a deletion deletes the playlist and leaves the screen showing it |
| LocalPlaylistScreen.DeleteConfirmedLeaves | app/src/main/kotlin/it/vfsfitvnm/vimusic/ui/screens/localplaylist/LocalPlaylistScreen.kt:183-188 | the corrected deletion makes the same database call and leaves the screen |
| LocalPlaylistScreen.LocalPlaylistScreenState.constructor | app/src/main/kotlin/it/vfsfitvnm/vimusic/ui/screens/localplaylist/LocalPlaylistScreen.kt:63 | the screen starts from its persisted playlist, on screen, with no calls made |
| LocalPlaylistScreen.LocalPlaylistScreenState.OnDatabaseEmission | app/src/main/kotlin/it/vfsfitvnm/vimusic/ui/screens/localplaylist/LocalPlaylistScreen.kt:71-74 | an emitted playlist replaces the shown one; a missing one leaves it in place |
| LocalPlaylistScreen.LocalPlaylistScreenState.Sync | app/src/main/kotlin/it/vfsfitvnm/vimusic/ui/screens/localplaylist/LocalPlaylistScreen.kt:100-127 | the sync button makes exactly the `SyncSpec` calls |
| LocalPlaylistScreen.LocalPlaylistScreenState.Rename | app/src/main/kotlin/it/vfsfitvnm/vimusic/ui/screens/localplaylist/LocalPlaylistScreen.kt:170-174 | the shown playlist, if any, is written back under the new name, and nothing else changes |
| LocalPlaylistScreen.LocalPlaylistScreenState.ConfirmDelete | app/src/main/kotlin/it/vfsfitvnm/vimusic/ui/screens/localplaylist/LocalPlaylistScreen.kt:183-188 | with the corrected deletion, the shown playlist is deleted and the screen is left |
| QuickPicks.SongId | app/src/main/kotlin/it/vfsfitvnm/vimusic/ui/screens/home/QuickPicks.kt:90 | a song's id, or null for no song |
| QuickPicks.Seed | app/src/main/kotlin/it/vfsfitvnm/vimusic/ui/screens/home/QuickPicks.kt:92 | the related page is seeded by the song's id, or by `J7p4bzqLvCw` when there is no song |
| QuickPicks.MustRefetch | app/src/main/kotlin/it/vfsfitvnm/vimusic/ui/screens/home/QuickPicks.kt:90 | the refetch test: no song and no answer yet, or the song's id differs from the trending one's |
| QuickPicks.Collected | app/src/main/kotlin/it/vfsfitvnm/vimusic/ui/screens/home/QuickPicks.kt:89-95 | one emission: the related page is requested for the seed when the test holds, and the song becomes the trending one |
| QuickPicks.CollectedCases | app/src/main/kotlin/it/vfsfitvnm/vimusic/ui/screens/home/QuickPicks.kt:89-95 | an emission refetches exactly when there is no song and no answer, or the id changed; the request is for the seed; the emitted song is trending afterwards either way |
| QuickPicks.CollectAll | app/src/main/kotlin/it/vfsfitvnm/vimusic/ui/screens/home/QuickPicks.kt:88-96 | the variables after emitting the songs in order, and the requests made, in order |
| QuickPicks.SameSongAskedOnce | app/src/main/kotlin/it/vfsfitvnm/vimusic/ui/screens/home/QuickPicks.kt:88-96 | however often the same song is emitted, the page is requested at most once, and only for that song; a fresh screen always asks |
| QuickPicks.QuickPicksState.constructor | app/src/main/kotlin/it/vfsfitvnm/vimusic/ui/screens/home/QuickPicks.kt:84-86 | the screen starts from its persisted trending song and answer |
| QuickPicks.QuickPicksState.OnTrending | app/src/main/kotlin/it/vfsfitvnm/vimusic/ui/screens/home/QuickPicks.kt:89-95 | the `collect` body updates the two variables and requests exactly as `Collected` specifies |
| QuickPicks.QuickPicksState.Collect | app/src/main/kotlin/it/vfsfitvnm/vimusic/ui/screens/home/QuickPicks.kt:88-96 | collecting a sequence of songs matches `CollectAll`: the final variables and every request, in order |
| QuickPicks.DropLast | app/src/main/kotlin/it/vfsfitvnm/vimusic/ui/screens/home/QuickPicks.kt:200 | `dropLast(n)` is the prefix that leaves out the last n elements, and is empty when there are fewer |
| QuickPicks.QuickPicksList | app/src/main/kotlin/it/vfsfitvnm/vimusic/ui/screens/home/QuickPicks.kt:157-201 | the grid: the trending song, if any, then the related songs with the last one dropped when the trending song is there |
| QuickPicks.QuickPicksListShape | app/src/main/kotlin/it/vfsfitvnm/vimusic/ui/screens/home/QuickPicks.kt:157-201 | the trending song comes first, then the related songs in order; the trending song takes the last related song's place, so the grid is as long as the related list |
| QuickPicks.DisplayOf | app/src/main/kotlin/it/vfsfitvnm/vimusic/ui/screens/home/QuickPicks.kt:142-321 | the sections for a success with a page, else the error text for a failure, else the placeholders |
| QuickPicks.DisplayCases | app/src/main/kotlin/it/vfsfitvnm/vimusic/ui/screens/home/QuickPicks.kt:142-321 | sections show exactly for a success with a page, the error text exactly for a failure, and placeholders otherwise (including a success with no page) |
| QuickPicks.PickClick | app/src/main/kotlin/it/vfsfitvnm/vimusic/ui/screens/home/QuickPicks.kt:177-184 | a click stops the radio, plays the pick and starts a radio seeded by the same video |
| BuiltInPlaylistSongs.KeptOffline | app/src/main/kotlin/it/vfsfitvnm/vimusic/ui/screens/builtinplaylist/BuiltInPlaylistSongs.kt:72-74 | the offline test: the length is known, and the cache holds the song from byte 0 for that length; false with no service or cache |
| BuiltInPlaylistSongs.OfflineSongs | app/src/main/kotlin/it/vfsfitvnm/vimusic/ui/screens/builtinplaylist/BuiltInPlaylistSongs.kt:71-75 | the songs whose entries pass the offline test, in library order |
| BuiltInPlaylistSongs.KeptPositions | app/src/main/kotlin/it/vfsfitvnm/vimusic/ui/screens/builtinplaylist/BuiltInPlaylistSongs.kt:71-75 | the positions of the entries that pass the offline test all lie within the list |
| BuiltInPlaylistSongs.OfflineSongsAtKeptPositions | app/src/main/kotlin/it/vfsfitvnm/vimusic/ui/screens/builtinplaylist/BuiltInPlaylistSongs.kt:71-75 | the offline list is an order-preserving subsequence: strictly increasing positions of entries that pass, projected to their songs |
| BuiltInPlaylistSongs.KeptPositionsComplete | app/src/main/kotlin/it/vfsfitvnm/vimusic/ui/screens/builtinplaylist/BuiltInPlaylistSongs.kt:71-75 | no entry that passes the test is dropped |
| BuiltInPlaylistSongs.OfflineSongsMembers | app/src/main/kotlin/it/vfsfitvnm/vimusic/ui/screens/builtinplaylist/BuiltInPlaylistSongs.kt:71-75 | a song is listed exactly when one of its entries has a content length and is fully cached |
| BuiltInPlaylistSongs.NoCacheNothingOffline | app/src/main/kotlin/it/vfsfitvnm/vimusic/ui/screens/builtinplaylist/BuiltInPlaylistSongs.kt:72-74 | with no bound service or cache, nothing is offline |
| BuiltInPlaylistSongs.ShownSongs | app/src/main/kotlin/it/vfsfitvnm/vimusic/ui/screens/builtinplaylist/BuiltInPlaylistSongs.kt:64-77 | Favorites lists the favorites unfiltered; Offline lists the offline selection |
| BuiltInPlaylistSongs.MediaIds | app/src/main/kotlin/it/vfsfitvnm/vimusic/ui/screens/builtinplaylist/BuiltInPlaylistSongs.kt:138 | one media id per song, in order |
| BuiltInPlaylistSongs.MediaIdsPermutation | app/src/main/kotlin/it/vfsfitvnm/vimusic/ui/screens/builtinplaylist/BuiltInPlaylistSongs.kt:89-96 | lists that are permutations of each other have media id lists that are permutations of each other |
| BuiltInPlaylistSongs.ShuffleClick | app/src/main/kotlin/it/vfsfitvnm/vimusic/ui/screens/builtinplaylist/BuiltInPlaylistSongs.kt:89-96 | shown only over a non-empty list; stops the radio and plays from the start exactly the media ids of the shuffled order, which hold each of the list's media ids exactly as often as the list does |
| BuiltInPlaylistSongs.EnqueueClick | app/src/main/kotlin/it/vfsfitvnm/vimusic/ui/screens/builtinplaylist/BuiltInPlaylistSongs.kt:105-107 | shown only over a non-empty list; queues the whole list in order without stopping the radio |
| BuiltInPlaylistSongs.SongClick | app/src/main/kotlin/it/vfsfitvnm/vimusic/ui/screens/builtinplaylist/BuiltInPlaylistSongs.kt:135-140 | stops the radio and plays the whole list starting at the clicked song |

## Left out

- Rendering, layout, theming, animation and menus are not modelled. This includes the grid
  sizes, the QuickPicks albums, artists and playlists sections, and the long-click menus.
- The catalog client is not part of this model. Its requests are function parameters that
  return `null`, a failure or a value. Exceptions thrown inside a request, and the
  `printStackTrace` logging in `completed`, are not modelled.
- The merge `ItemsPage + ItemsPage` comes from the catalog client. The grid takes it as the
  parameter `plus`, and the grid's members assume nothing about it.
- AlbumScreen.AlternativesLoadOnce: assumes `plus(None, p) == p`, that a page merged into no
  page is that page. The merge's own code is not part of this model.
- The `completed` modelled is the one in Utils.kt, package `app.vitune.android.utils`. The
  screens import `completed` from `it.vfsfitvnm.vimusic.utils`, and that file is not part of
  this model. The two are assumed to behave the same.
- Utils.Completed: `maxDepth` is an unbounded integer. The Kotlin `Int` counter `depth` can
  only wrap after the guard has already failed for the last time, so the wrap is not
  observable.
- ItemsPageScreen.ItemKeys: assumes no item key is the literal `empty` or `loading<i>`. Grid
  keys are a datatype, so item keys cannot clash with placeholder keys.
- MainActivity.IncomingLink: the shared text is taken as already parsed into a URI. `toUri()`
  parsing, the URI's host and path splitting, and the `getQueryParameter` decoding are not
  modelled.
- The Room database is not modelled. Its calls are recorded as `DbOp`s. Only the
  playlist-membership calls get a meaning (`ApplyToRows`). Transactions, coroutines,
  dispatchers and `runBlocking` are not modelled; each handler runs to completion in one
  step.
- Library.SongsOf: the membership table is a list of rows, read back in insertion order.
  `position` is ignored, reordering (`Database.move`) is not modelled, and two rows for the
  same song and playlist are both kept. The app keys a playlist's list by song id, so
  `ImportOpsShape`, `SyncReplaces`, `SyncLoaded` and `AddSongsOpsEffect` describe what the app
  shows only when the listed song ids are pairwise distinct.
- PlaylistScreen.ImportOpsShape: the new playlist row is written with id 0, the entity's
  default. The id the database assigns is the parameter `newId`.
- `distinctUntilChanged` and `combine` on the database flows are not modelled. Emissions are
  taken as given, so repeated emissions are allowed.
- Navigation is recorded as route strings. The route table and `pop` are not modelled beyond
  whether the screen is left.
- BuiltInPlaylistSongs.ShuffleClick: `shuffled()` randomness is a parameter, required to be a
  permutation of the list. Its distribution is not modelled.
- Player behaviour after a call (queue contents, radio) is not modelled. A click is its
  sequence of calls.
- The binder's `player` is taken to be present whenever the binder is.
- MainActivity.Activity.HandleData: the wait for the service binder before playing a video is
  not modelled. The play call is recorded as made.

## Findings

| source | as written | input that shows it | evidently intended | confidence | as-written member | corrected member |
|---|---|---|---|---|---|---|
| app/src/main/kotlin/it/vfsfitvnm/vimusic/ui/screens/localplaylist/LocalPlaylistScreen.kt:187 | `pop` is only referred to, never called, so confirming a deletion leaves the screen open. The database stops emitting the deleted playlist, and `filterNotNull` (line 72) keeps the stale copy on screen. | any shown playlist, then confirming its deletion | `pop()`: delete the playlist and leave the screen | not executed | LocalPlaylistScreen.DeleteAsWrittenShowsDeleted | LocalPlaylistScreen.DeleteConfirmedLeaves |
