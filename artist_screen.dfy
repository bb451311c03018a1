/**
 * ui/screens/artist/ArtistScreen.kt: when the artist page is fetched, the library row that a
 * fetch writes, the bookmark button, the per-tab item providers handed to the grid, and a
 * song click. Catalog requests are parameters, database calls are recorded `DbOp`s.
 */
module ArtistScreen {
  import opened Wrappers
  import opened Innertube
  import opened Library
  import opened PlayerService
  import ItemsPageScreen
  import MainActivity
  import Utils

  /** The index of the library tab, the one tab that does not insist on fresh data. */
  const LibraryTab := 4

  /**
   * The fetch gate of the `collect` callback: nothing is loaded yet, and either the artist was
   * never fetched or the library tab is not the one shown.
   */
  predicate MustFetch(artistPage: Option<ArtistPage>, currentArtist: Option<Artist>, tabIndex: int) {
    artistPage.None? && (currentArtist.None? || currentArtist.value.timestamp.None? || tabIndex != LibraryTab)
  }

  /** The row written after a successful fetch. */
  function FetchedArtist(browseId: string, page: ArtistPage, currentArtist: Option<Artist>, now: Millis): Artist {
    Artist(
      browseId,
      page.name,
      if page.thumbnail.Some? then Some(page.thumbnail.value.url) else None,
      Some(now),
      if currentArtist.Some? then currentArtist.value.bookmarkedAt else None)
  }

  /**
   * A fetch is made only while nothing is loaded; a cached artist viewed on the library tab
   * is not fetched; and an artist that was never fetched is fetched whatever the tab.
   */
  lemma MustFetchCases(artistPage: Option<ArtistPage>, currentArtist: Option<Artist>, tabIndex: int)
    ensures artistPage.Some? ==> !MustFetch(artistPage, currentArtist, tabIndex)
    ensures currentArtist.Some? && currentArtist.value.timestamp.Some? && tabIndex == LibraryTab ==>
      !MustFetch(artistPage, currentArtist, tabIndex)
    ensures artistPage.None? && (currentArtist.None? || currentArtist.value.timestamp.None?) ==>
      MustFetch(artistPage, currentArtist, tabIndex)
    ensures artistPage.None? && tabIndex != LibraryTab ==> MustFetch(artistPage, currentArtist, tabIndex)
  {
  }

  /**
   * A fetch followed by the row's echo from the database turns the gate off on the library
   * tab: the written row carries a timestamp, the browse id, and the bookmark it had.
   */
  lemma FetchedArtistIsCached(browseId: string, page: ArtistPage, currentArtist: Option<Artist>, now: Millis)
    ensures var a := FetchedArtist(browseId, page, currentArtist, now);
      && a.id == browseId
      && a.timestamp == Some(now)
      && (currentArtist.Some? ==> a.bookmarkedAt == currentArtist.value.bookmarkedAt)
      && (currentArtist.None? ==> a.bookmarkedAt.None?)
      && !MustFetch(None, Some(a), LibraryTab)
  {
  }

  /** The prefix of the link the share button sends, followed by the artist's browse id. */
  const ChannelUrlBase := "https://music.youtube.com/channel/"

  function ShareUrl(browseId: string): string {
    ChannelUrlBase + browseId
  }

  /**
   * The shared link is on music.youtube.com with the path `channel/<browse id>`, and that link,
   * received by the app, opens this same artist.
   */
  lemma ShareUrlOpensArtist(browseId: string)
    ensures ShareUrl(browseId) == "https://" + "music.youtube.com" + "/" + "channel" + "/" + browseId
    ensures MainActivity.Classify(MainActivity.Uri(Some("music.youtube.com"), ["channel", browseId], []))
      == MainActivity.OpenArtist(browseId)
  {
  }

  /** What a tab's provider answered, and the catalog requests it made on the way, in order. */
  datatype Chained<T> = Chained(response: ItemsPageScreen.Response<T>, requests: seq<Request>)

  /**
   * A tab provider: the continuation request when there is a cursor; if that yields nothing,
   * the browse request of the tab's endpoint when it has a browse id; if that yields nothing
   * too, a success page holding the artist page's embedded items and no continuation.
   */
  function ProviderChain<T>(
    endpoint: Option<Endpoint>, embedded: Option<seq<T>>, continuation: Option<Cursor>,
    itemsPage: Request -> ItemsPageScreen.Response<T>): Chained<T>
  {
    var first :=
      if continuation.Some? then Chained(itemsPage(ContinuationRequest(continuation.value)), [ContinuationRequest(continuation.value)])
      else Chained(None, []);
    if first.response.Some? then first
    else
      var second :=
        if endpoint.Some? && endpoint.value.browseId.Some? then
          var r := BrowseRequest(endpoint.value.browseId.value, endpoint.value.params);
          Chained(itemsPage(r), first.requests + [r])
        else Chained(None, first.requests);
      if second.response.Some? then second
      else Chained(Some(Success(Some(ItemsPage(embedded, None)))), second.requests)
  }

  /**
   * A tab provider never answers `null`; it makes at most two requests, the continuation
   * request first and only when there is a cursor; a browse request is made only when the
   * continuation request yielded nothing, and always with the endpoint's id and parameters;
   * a browsable endpoint is always asked when there is no cursor or the continuation request
   * answered `null`, and never when it answered; and an answer that is not the embedded
   * fallback is the answer to its last request.
   */
  lemma ProviderChainShape<T>(
    endpoint: Option<Endpoint>, embedded: Option<seq<T>>, continuation: Option<Cursor>,
    itemsPage: Request -> ItemsPageScreen.Response<T>)
    ensures var c := ProviderChain(endpoint, embedded, continuation, itemsPage);
      && c.response.Some?
      && |c.requests| <= 2
      && (continuation.Some? ==> c.requests != [] && c.requests[0] == ContinuationRequest(continuation.value))
      && (continuation.None? ==> forall i :: 0 <= i < |c.requests| ==> c.requests[i].BrowseRequest?)
      && (forall i :: 0 <= i < |c.requests| && c.requests[i].BrowseRequest? ==>
            endpoint.Some? && c.requests[i] == BrowseRequest(endpoint.value.browseId.value, endpoint.value.params))
      && (c.requests != [] && itemsPage(c.requests[|c.requests| - 1]).Some? ==>
            c.response == itemsPage(c.requests[|c.requests| - 1]))
      && (c.requests == [] || itemsPage(c.requests[|c.requests| - 1]).None? ==>
            c.response == Some(Success(Some(ItemsPage(embedded, None)))))
      && (endpoint.Some? && endpoint.value.browseId.Some? && continuation.None? ==>
            c.requests == [BrowseRequest(endpoint.value.browseId.value, endpoint.value.params)])
      && (endpoint.Some? && endpoint.value.browseId.Some? && continuation.Some?
          && itemsPage(ContinuationRequest(continuation.value)).None? ==>
            c.requests == [ContinuationRequest(continuation.value),
                           BrowseRequest(endpoint.value.browseId.value, endpoint.value.params)])
      && (continuation.Some? && itemsPage(ContinuationRequest(continuation.value)).Some? ==>
            c.requests == [ContinuationRequest(continuation.value)])
  {
  }

  /** With neither a cursor nor a browsable endpoint the tab shows exactly the embedded items. */
  lemma ProviderChainEmbedded<T>(
    endpoint: Option<Endpoint>, embedded: Option<seq<T>>,
    itemsPage: Request -> ItemsPageScreen.Response<T>)
    requires endpoint.None? || endpoint.value.browseId.None?
    ensures ProviderChain(endpoint, embedded, None, itemsPage) == Chained(Some(Success(Some(ItemsPage(embedded, None)))), [])
  {
  }

  /** The provider a tab hands to the grid: none until the artist page is loaded. */
  function TabProvider<T>(
    artistPage: Option<ArtistPage>, endpointOf: ArtistPage -> Option<Endpoint>, embeddedOf: ArtistPage -> Option<seq<T>>,
    itemsPage: Request -> ItemsPageScreen.Response<T>): (r: Option<Option<Cursor> -> ItemsPageScreen.Response<T>>)
    ensures r.Some? <==> artistPage.Some?
  {
    if artistPage.None? then None
    else
      var page := artistPage.value;
      Some(c => ProviderChain(endpointOf(page), embeddedOf(page), c, itemsPage).response)
  }

  function SongsProvider(artistPage: Option<ArtistPage>, itemsPage: Request -> ItemsPageScreen.Response<SongItem>): Option<Option<Cursor> -> ItemsPageScreen.Response<SongItem>> {
    TabProvider(artistPage, (p: ArtistPage) => p.songsEndpoint, (p: ArtistPage) => p.songs, itemsPage)
  }

  function AlbumsProvider(artistPage: Option<ArtistPage>, itemsPage: Request -> ItemsPageScreen.Response<AlbumItem>): Option<Option<Cursor> -> ItemsPageScreen.Response<AlbumItem>> {
    TabProvider(artistPage, (p: ArtistPage) => p.albumsEndpoint, (p: ArtistPage) => p.albums, itemsPage)
  }

  function SinglesProvider(artistPage: Option<ArtistPage>, itemsPage: Request -> ItemsPageScreen.Response<AlbumItem>): Option<Option<Cursor> -> ItemsPageScreen.Response<AlbumItem>> {
    TabProvider(artistPage, (p: ArtistPage) => p.singlesEndpoint, (p: ArtistPage) => p.singles, itemsPage)
  }

  /** Before the artist page is loaded, the songs grid never calls the catalog and keeps its page. */
  lemma SongsTabWaitsForArtistPage(
    page: Option<ItemsPage<SongItem>>, visibles: seq<set<ItemsPageScreen.GridKey>>,
    plus: (Option<ItemsPage<SongItem>>, ItemsPage<SongItem>) -> ItemsPage<SongItem>,
    itemsPage: Request -> ItemsPageScreen.Response<SongItem>)
    ensures ItemsPageScreen.Run(page, SongsProvider(None, itemsPage), visibles, plus).0 == page
    ensures ItemsPageScreen.Run(page, SongsProvider(None, itemsPage), visibles, plus).1 == []
  {
    ItemsPageScreen.NoProviderNoLoad(page, visibles, plus);
  }

  /** A click on a song: the radio stops, the song plays, and a radio seeded by it starts. */
  function SongClick(bound: bool, song: SongItem): (r: seq<PlayerCall>)
    ensures bound ==> r == [StopRadio, ForcePlay(song.key), SetupRadio(if song.info.Some? then song.info.value.endpoint else None)]
    ensures !bound ==> r == []
  {
    IfBound(bound, [StopRadio, ForcePlay(song.key), SetupRadio(if song.info.Some? then song.info.value.endpoint else None)])
  }

  /** The screen's state: the library row, the fetched page, and the database calls made. */
  class ArtistScreenState {
    const browseId: string
    var artist: Option<Artist>
    var artistPage: Option<ArtistPage>
    var dbOps: seq<DbOp>

    constructor (browseId: string, persistedArtist: Option<Artist>, persistedPage: Option<ArtistPage>)
      ensures this.browseId == browseId && artist == persistedArtist && artistPage == persistedPage && dbOps == []
    {
      this.browseId := browseId;
      artist := persistedArtist;
      artistPage := persistedPage;
      dbOps := [];
    }

    /**
     * One emission of (library row, tab): the row is stored; when the gate is open the page
     * is requested, and a successful answer is stored and written back with a fresh timestamp.
     */
    method OnEmission(currentArtist: Option<Artist>, tabIndex: int, fetch: () -> Option<Result<ArtistPage, Error>>, now: Millis)
      returns (requested: bool)
      modifies this
      ensures requested == MustFetch(old(artistPage), currentArtist, tabIndex)
      ensures artist == currentArtist
      ensures var r := fetch();
        if requested && r.Some? && r.value.Success? then
          artistPage == Some(r.value.value)
          && dbOps == old(dbOps) + [UpsertArtist(FetchedArtist(browseId, r.value.value, currentArtist, now))]
        else
          artistPage == old(artistPage) && dbOps == old(dbOps)
    {
      artist := currentArtist;
      requested := MustFetch(artistPage, currentArtist, tabIndex);
      if requested {
        var r := fetch();
        if r.Some? && r.value.Success? {
          artistPage := Some(r.value.value);
          dbOps := dbOps + [UpsertArtist(FetchedArtist(browseId, r.value.value, currentArtist, now))];
        }
      }
    }

    /**
     * The bookmark button: the stored row, if any, is written back with its bookmark toggled;
     * the screen's copy changes only when the database echoes the row.
     */
    method OnBookmarkClick(now: Millis)
      modifies this
      ensures artist.None? ==> dbOps == old(dbOps)
      ensures artist.Some? ==>
        dbOps == old(dbOps) + [UpdateArtist(artist.value.(bookmarkedAt := ToggledBookmark(artist.value.bookmarkedAt, now)))]
      ensures artist == old(artist) && artistPage == old(artistPage)
    {
      if artist.Some? {
        dbOps := dbOps + [UpdateArtist(artist.value.(bookmarkedAt := ToggledBookmark(artist.value.bookmarkedAt, now)))];
      }
    }

    /** The share button: the artist's channel link, whether or not anything is loaded. */
    method OnShareClick() returns (shared: string)
      ensures shared == ShareUrl(browseId)
      ensures Utils.StartsWith(shared, ChannelUrlBase) && shared[|ChannelUrlBase|..] == browseId
    {
      shared := ChannelUrlBase + browseId;
    }
  }
}
