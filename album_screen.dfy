/**
 * ui/screens/album/AlbumScreen.kt: when the album page is fetched, the library rows a fetch
 * writes (the album, its songs and their positions), the bookmark and share buttons, and the
 * provider of the "other versions" grid.
 */
module AlbumScreen {
  import opened Wrappers
  import opened Innertube
  import opened Library
  import ItemsPageScreen

  /** The index of the "other versions" tab. */
  const OtherVersionsTab := 1

  /**
   * The fetch gate: nothing is loaded yet, and either the album was never fetched or the
   * "other versions" tab is shown.
   */
  predicate MustFetch(albumPage: Option<PlaylistOrAlbumPage>, currentAlbum: Option<Album>, tabIndex: int) {
    albumPage.None? && (currentAlbum.None? || currentAlbum.value.timestamp.None? || tabIndex == OtherVersionsTab)
  }

  /** `authors?.joinToString("") { it.name ?: "" }` without the `null` case. */
  function JoinNames(authors: seq<Info>): string {
    if authors == [] then ""
    else (if authors[0].name.Some? then authors[0].name.value else "") + JoinNames(authors[1..])
  }

  /** The album's `authorsText`: no text when the page lists no authors. */
  function AuthorsText(authors: Option<seq<Info>>): (r: Option<string>)
    ensures r.Some? <==> authors.Some?
  {
    if authors.None? then None else Some(JoinNames(authors.value))
  }

  /** Joining with no separator distributes over concatenation of the author lists. */
  lemma {:induction false} JoinNamesAppend(a: seq<Info>, b: seq<Info>)
    ensures JoinNames(a + b) == JoinNames(a) + JoinNames(b)
  {
    if a != [] {
      assert (a + b)[0] == a[0];
      assert (a + b)[1..] == a[1..] + b;
      JoinNamesAppend(a[1..], b);
    } else {
      assert a + b == b;
    }
  }

  /** Authors without a name add nothing to the text; each named author adds exactly its name. */
  lemma JoinNamesSingle(author: Info)
    ensures JoinNames([author]) == (if author.name.Some? then author.name.value else "")
  {
  }

  /** The text is as long as all the known names together. */
  function NamesLength(authors: seq<Info>): nat {
    if authors == [] then 0
    else (if authors[0].name.Some? then |authors[0].name.value| else 0) + NamesLength(authors[1..])
  }

  lemma {:induction false} JoinNamesLength(authors: seq<Info>)
    ensures |JoinNames(authors)| == NamesLength(authors)
  {
    if authors != [] {
      JoinNamesLength(authors[1..]);
    }
  }

  /** `mapIndexed { position, item -> SongAlbumMap(item.mediaId, browseId, position) }` */
  function SongAlbumMaps(browseId: string, songIds: seq<string>): (r: seq<SongAlbumMap>)
    ensures |r| == |songIds|
    ensures forall i :: 0 <= i < |r| ==> r[i] == SongAlbumMap(songIds[i], browseId, i)
  {
    seq(|songIds|, i requires 0 <= i < |songIds| => SongAlbumMap(songIds[i], browseId, i))
  }

  /** The album row written after a successful fetch. */
  function FetchedAlbum(browseId: string, page: PlaylistOrAlbumPage, album: Option<Album>, now: Millis): Album {
    Album(
      browseId,
      page.title,
      if page.thumbnail.Some? then Some(page.thumbnail.value.url) else None,
      page.year,
      AuthorsText(page.authors),
      page.url,
      Some(now),
      if album.Some? then album.value.bookmarkedAt else None)
  }

  /**
   * The database calls of a successful fetch: the album's old song rows are cleared, each
   * song is inserted, and the album is upserted with one row per song at its page position.
   */
  function FetchOps(browseId: string, page: PlaylistOrAlbumPage, album: Option<Album>, now: Millis): seq<DbOp> {
    var ids := SongIds(ItemsOrEmpty(page.songsPage));
    [ClearAlbum(browseId)] + InsertSongs(ids) + [UpsertAlbum(FetchedAlbum(browseId, page, album, now), SongAlbumMaps(browseId, ids))]
  }

  /**
   * A fetch clears the album first and upserts it last; the upsert keeps the bookmark and
   * sets a timestamp, so the gate stays shut for that row outside the "other versions" tab;
   * its rows follow the page order, refer to the album and only to songs inserted before;
   * with no songs on the page there are no rows.
   */
  lemma FetchOpsShape(browseId: string, page: PlaylistOrAlbumPage, album: Option<Album>, now: Millis)
    ensures var ops := FetchOps(browseId, page, album, now);
      && ops[0] == ClearAlbum(browseId)
      && ops[|ops| - 1].UpsertAlbum?
      && (forall i :: 0 < i < |ops| ==> !ops[i].ClearAlbum?)
      && var upserted := ops[|ops| - 1].album;
      && var maps := ops[|ops| - 1].songAlbumMaps;
      && upserted.id == browseId
      && upserted.bookmarkedAt == (if album.Some? then album.value.bookmarkedAt else None)
      && !MustFetch(None, Some(upserted), 0)
      && |maps| == |ItemsOrEmpty(page.songsPage)|
      && (forall i :: 0 <= i < |maps| ==>
            maps[i].songId == ItemsOrEmpty(page.songsPage)[i].key && maps[i].albumId == browseId && maps[i].position == i)
      && SongsInsertedBeforeMaps(ops)
  {
    var ids := SongIds(ItemsOrEmpty(page.songsPage));
    var last := UpsertAlbum(FetchedAlbum(browseId, page, album, now), SongAlbumMaps(browseId, ids));
    forall id | id in MappedSongs(last)
      ensures id in ids
    {
      var maps := SongAlbumMaps(browseId, ids);
      var k :| 0 <= k < |maps| && MappedSongs(last)[k] == id;
      assert ids[k] == id;
    }
    InsertsThenMaps([ClearAlbum(browseId)], ids, last);
  }

  /** The provider of the "other versions" grid: none until the page is loaded. */
  function AlternativesProvider(albumPage: Option<PlaylistOrAlbumPage>): (r: Option<Option<Cursor> -> ItemsPageScreen.Response<AlbumItem>>)
    ensures r.Some? <==> albumPage.Some?
  {
    if albumPage.None? then None
    else Some((c: Option<Cursor>) => Some(Success(Some(ItemsPage(albumPage.value.otherVersions, None)))))
  }

  /**
   * The provider ignores its cursor and always answers the page's other versions with no
   * continuation.
   */
  lemma AlternativesIgnoreCursor(page: PlaylistOrAlbumPage, c: Option<Cursor>)
    ensures AlternativesProvider(Some(page)).value(c) == Some(Success(Some(ItemsPage(page.otherVersions, None))))
    ensures AlternativesProvider(Some(page)).value(c) == AlternativesProvider(Some(page)).value(None)
  {
  }

  /**
   * Loaded into a never-loaded grid with a merge that adds a page to nothing unchanged, the
   * other versions make a page with no continuation, so the grid asks no more.
   */
  lemma AlternativesLoadOnce(
    page: PlaylistOrAlbumPage, visible: set<ItemsPageScreen.GridKey>,
    plus: (Option<ItemsPage<AlbumItem>>, ItemsPage<AlbumItem>) -> ItemsPage<AlbumItem>)
    requires forall p :: plus(None, p) == p
    requires ItemsPageScreen.ShouldLoadMore(visible)
    ensures var step := ItemsPageScreen.LoadStep(None, AlternativesProvider(Some(page)), visible, plus);
      && step.request == Some(None)
      && step.loaded.page == Some(ItemsPage(page.otherVersions, None))
      && step.loaded.scrollToTop
      && !ItemsPageScreen.ShowsPlaceholders(step.loaded.page)
  {
  }

  /** The screen's state: the library row, the fetched page, and the database calls made. */
  class AlbumScreenState {
    const browseId: string
    var album: Option<Album>
    var albumPage: Option<PlaylistOrAlbumPage>
    var dbOps: seq<DbOp>

    constructor (browseId: string, persistedAlbum: Option<Album>, persistedPage: Option<PlaylistOrAlbumPage>)
      ensures this.browseId == browseId && album == persistedAlbum && albumPage == persistedPage && dbOps == []
    {
      this.browseId := browseId;
      album := persistedAlbum;
      albumPage := persistedPage;
      dbOps := [];
    }

    /**
     * One emission of (library row, tab): the row is stored; when the gate is open the page
     * is requested, and a successful answer is stored and written to the library.
     */
    method OnEmission(currentAlbum: Option<Album>, tabIndex: int, fetch: () -> Option<Result<PlaylistOrAlbumPage, Error>>, now: Millis)
      returns (requested: bool)
      modifies this
      ensures requested == MustFetch(old(albumPage), currentAlbum, tabIndex)
      ensures album == currentAlbum
      ensures var r := fetch();
        if requested && r.Some? && r.value.Success? then
          albumPage == Some(r.value.value) && dbOps == old(dbOps) + FetchOps(browseId, r.value.value, currentAlbum, now)
        else
          albumPage == old(albumPage) && dbOps == old(dbOps)
    {
      album := currentAlbum;
      requested := MustFetch(albumPage, currentAlbum, tabIndex);
      if requested {
        var r := fetch();
        if r.Some? && r.value.Success? {
          var page := r.value.value;
          albumPage := Some(page);
          dbOps := dbOps + [ClearAlbum(browseId)];
          var ids := SongIds(ItemsOrEmpty(page.songsPage));
          dbOps := InsertEach(dbOps, ids);
          dbOps := dbOps + [UpsertAlbum(FetchedAlbum(browseId, page, album, now), SongAlbumMaps(browseId, ids))];
          assert dbOps == old(dbOps) + FetchOps(browseId, page, currentAlbum, now);
        }
      }
    }

    /** The bookmark button: the stored row, if any, is written back with its bookmark toggled. */
    method OnBookmarkClick(now: Millis)
      modifies this
      ensures album.None? ==> dbOps == old(dbOps)
      ensures album.Some? ==>
        dbOps == old(dbOps) + [UpdateAlbum(album.value.(bookmarkedAt := ToggledBookmark(album.value.bookmarkedAt, now)))]
      ensures album == old(album) && albumPage == old(albumPage)
    {
      if album.Some? {
        dbOps := dbOps + [UpdateAlbum(album.value.(bookmarkedAt := ToggledBookmark(album.value.bookmarkedAt, now)))];
      }
    }

    /** The share button: the stored row's share URL is sent, and nothing when there is none. */
    method OnShareClick() returns (shared: Option<string>)
      ensures album.None? ==> shared.None?
      ensures album.Some? ==> shared == album.value.shareUrl
    {
      shared := if album.Some? then album.value.shareUrl else None;
    }
  }
}
