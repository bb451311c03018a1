/**
 * ui/screens/playlist/PlaylistScreen.kt: when a remote playlist is (re)loaded and how, the URL
 * its share button sends, and the library rows its import writes.
 */
module PlaylistScreen {
  import opened Wrappers
  import opened Innertube
  import opened Library
  import Utils
  import MainActivity

  const ShareBase := "https://music.youtube.com/playlist?list="

  /** The load is skipped when a page is cached and its songs were already all gathered. */
  predicate SkipLoad(playlistPage: Option<PlaylistOrAlbumPage>) {
    playlistPage.Some? && Utils.SongsContinuation(playlistPage.value).None?
  }

  /**
   * `playlistPage(…)?.completed()?.getOrNull()`: the fully gathered page, or nothing when the
   * request answered `null` or failed.
   */
  function LoadedPage(
    response: Option<Result<PlaylistOrAlbumPage, Error>>, fetch: Cursor -> Option<ItemsPage<SongItem>>): Option<PlaylistOrAlbumPage>
  {
    if response.None? then None
    else Utils.CompletedSpec(response.value, fetch, Utils.DefaultMaxDepth, false).result.GetOrNull()
  }

  /**
   * A load stores either nothing (the request answered `null` or failed, and a cached partial
   * page is dropped) or a page with no continuation, which the next visit does not reload.
   */
  lemma LoadedPageSettles(
    response: Option<Result<PlaylistOrAlbumPage, Error>>, fetch: Cursor -> Option<ItemsPage<SongItem>>)
    ensures var p := LoadedPage(response, fetch);
      && (p.None? <==> response.None? || response.value.Failure?)
      && (p.Some? ==> SkipLoad(p) && p.value == response.value.value.(songsPage := p.value.songsPage))
  {
    if response.Some? && response.value.Success? {
      Utils.CompletedFlattens(response.value, fetch, Utils.DefaultMaxDepth, false);
    }
  }

  /** `removePrefix`: one leading occurrence of `prefix` is dropped, if there is one. */
  function RemovePrefix(s: string, prefix: string): (r: string)
    ensures Utils.StartsWith(s, prefix) ==> s == prefix + r
    ensures !Utils.StartsWith(s, prefix) ==> r == s
  {
    if Utils.StartsWith(s, prefix) then s[|prefix|..] else s
  }

  /** The URL the share button sends: the page's own, else one built from the browse id. */
  function ShareUrl(playlistPage: Option<PlaylistOrAlbumPage>, browseId: string): string {
    if playlistPage.Some? && playlistPage.value.url.Some? then playlistPage.value.url.value
    else ShareBase + RemovePrefix(browseId, "VL")
  }

  /**
   * A playlist opened from a link with `list=P` shares, when the page names no URL of its own,
   * a link with the same `list=P`.
   */
  lemma ShareUrlOfLinkedPlaylist(uri: MainActivity.Uri, playlistPage: Option<PlaylistOrAlbumPage>)
    requires MainActivity.Classify(uri).OpenPlaylist?
    requires playlistPage.None? || playlistPage.value.url.None?
    ensures MainActivity.FirstSegment(uri) == Some("playlist")
    ensures ShareUrl(playlistPage, MainActivity.Classify(uri).browseId)
      == ShareBase + MainActivity.QueryParameter(uri.query, "list").value
  {
    var p := MainActivity.QueryParameter(uri.query, "list").value;
    assert ("VL" + p)[..2] == "VL";
    assert ("VL" + p)[2..] == p;
  }

  /** The calls of an import, after the playlist row got id `playlistId`. */
  function ImportOps(browseId: string, name: string, playlistPage: Option<PlaylistOrAlbumPage>, playlistId: int): seq<DbOp> {
    [InsertPlaylist(Playlist(0, name, Some(browseId)))] + AddSongsOps(playlistId, ListedSongIds(playlistPage))
  }

  /**
   * An import inserts the playlist row first, under the chosen name and the remote browse id,
   * and nothing else when the page lists no songs; each membership row refers to a song
   * inserted before it; and the new playlist then reads back as exactly the page's songs in
   * page order.
   */
  lemma ImportOpsShape(
    browseId: string, name: string, playlistPage: Option<PlaylistOrAlbumPage>, playlistId: int,
    rows: seq<SongPlaylistMap>)
    requires SongsOf(rows, playlistId) == []
    ensures var ops := ImportOps(browseId, name, playlistPage, playlistId);
      && ops[0] == InsertPlaylist(Playlist(0, name, Some(browseId)))
      && (ListedSongIds(playlistPage).None? ==> ops == [InsertPlaylist(Playlist(0, name, Some(browseId)))])
      && SongsInsertedBeforeMaps(ops)
      && SongsOf(ApplyToRows(rows, ops), playlistId)
         == (if playlistPage.Some? then SongIds(ItemsOrEmpty(playlistPage.value.songsPage)) else [])
  {
    var first := InsertPlaylist(Playlist(0, name, Some(browseId)));
    var ops := ImportOps(browseId, name, playlistPage, playlistId);
    AddSongsOpsEffect(first, playlistId, ListedSongIds(playlistPage), rows, playlistId);
    ApplyToRowsConcat(rows, [first], AddSongsOps(playlistId, ListedSongIds(playlistPage)));
    ApplyToRowsSkips(rows, [first]);
    if ListedSongIds(playlistPage).None? && playlistPage.Some? {
      assert SongIds(ItemsOrEmpty(playlistPage.value.songsPage)) == [];
    }
  }

  /** The screen's state: the persisted page and the database calls made. */
  class PlaylistScreenState {
    const browseId: string
    var playlistPage: Option<PlaylistOrAlbumPage>
    var dbOps: seq<DbOp>

    constructor (browseId: string, persisted: Option<PlaylistOrAlbumPage>)
      ensures this.browseId == browseId && playlistPage == persisted && dbOps == []
    {
      this.browseId := browseId;
      playlistPage := persisted;
      dbOps := [];
    }

    /**
     * Entering the screen: unless the load is skipped, the page is requested, completed, and
     * stored (nothing when the request answered `null` or failed).
     */
    method Load(request: () -> Option<Result<PlaylistOrAlbumPage, Error>>, fetch: Cursor -> Option<ItemsPage<SongItem>>)
      returns (requested: bool, continuationRequests: seq<Cursor>)
      modifies this
      ensures requested == !SkipLoad(old(playlistPage))
      ensures !requested ==> playlistPage == old(playlistPage) && continuationRequests == []
      ensures requested ==> playlistPage == LoadedPage(request(), fetch)
      ensures requested && request().Some? ==>
        continuationRequests == Utils.CompletedSpec(request().value, fetch, Utils.DefaultMaxDepth, false).requests
      ensures requested && request().None? ==> continuationRequests == []
      ensures dbOps == old(dbOps)
    {
      continuationRequests := [];
      requested := !SkipLoad(playlistPage);
      if !requested {
        return;
      }
      var response := request();
      if response.None? {
        playlistPage := None;
        return;
      }
      var result;
      result, continuationRequests := Utils.Completed(response.value, fetch, Utils.DefaultMaxDepth, false);
      playlistPage := result.GetOrNull();
    }

    /** The import dialog's "done": one transaction of `ImportOps`, the new row getting `newId`. */
    method Import(name: string, newId: int)
      modifies this
      ensures dbOps == old(dbOps) + ImportOps(browseId, name, playlistPage, newId)
      ensures playlistPage == old(playlistPage)
    {
      dbOps := dbOps + [InsertPlaylist(Playlist(0, name, Some(browseId)))];
      var listed := ListedSongIds(playlistPage);
      if listed.Some? {
        var ids := listed.value;
        dbOps := InsertEach(dbOps, ids);
        dbOps := dbOps + [InsertSongPlaylistMaps(PlaylistRows(newId, ids))];
      }
    }
  }
}
