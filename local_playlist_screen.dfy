/**
 * ui/screens/localplaylist/LocalPlaylistScreen.kt: a library playlist's sync with the remote
 * playlist it was imported from, its renaming and its deletion.
 */
module LocalPlaylistScreen {
  import opened Wrappers
  import opened Innertube
  import opened Library
  import Utils
  import PlaylistScreen

  /** `PlaylistWithSongs`: the playlist row and the songs the database lists for it. */
  datatype PlaylistWithSongs = PlaylistWithSongs(playlist: Playlist, songs: seq<Song>)

  /** The sync button is offered when the playlist came from a remote one with a browse id. */
  predicate SyncOffered(shown: Option<PlaylistWithSongs>) {
    shown.Some? && shown.value.playlist.browseId.Some? && shown.value.playlist.browseId.value != ""
  }

  /** The calls of a sync once the remote playlist is in hand: clear, then add its songs. */
  function SyncOps(playlistId: int, remote: PlaylistOrAlbumPage): seq<DbOp> {
    [ClearPlaylist(playlistId)] + AddSongsOps(playlistId, ListedSongIds(Some(remote)))
  }

  /**
   * The whole sync transaction: nothing without a browse id or when the remote playlist does
   * not load; otherwise `SyncOps` on the fully gathered remote playlist.
   */
  function SyncSpec(
    playlistId: int, shown: Option<PlaylistWithSongs>,
    request: string -> Option<Result<PlaylistOrAlbumPage, Error>>, fetch: Cursor -> Option<ItemsPage<SongItem>>): seq<DbOp>
  {
    if shown.None? || shown.value.playlist.browseId.None? then []
    else
      match PlaylistScreen.LoadedPage(request(shown.value.playlist.browseId.value), fetch)
      case None => []
      case Some(remote) => SyncOps(playlistId, remote)
  }

  /**
   * After a sync the playlist lists exactly the remote songs, in remote order, whatever it
   * listed before; every other playlist keeps its songs; each membership row refers to a song
   * inserted before it.
   */
  lemma SyncReplaces(playlistId: int, remote: PlaylistOrAlbumPage, rows: seq<SongPlaylistMap>, other: int)
    ensures SongsInsertedBeforeMaps(SyncOps(playlistId, remote))
    ensures SongsOf(ApplyToRows(rows, SyncOps(playlistId, remote)), playlistId) == SongIds(ItemsOrEmpty(remote.songsPage))
    ensures other != playlistId ==>
      SongsOf(ApplyToRows(rows, SyncOps(playlistId, remote)), other) == SongsOf(rows, other)
  {
    var cleared := OtherRows(rows, playlistId);
    var add := AddSongsOps(playlistId, ListedSongIds(Some(remote)));
    AddSongsOpsEffect(ClearPlaylist(playlistId), playlistId, ListedSongIds(Some(remote)), cleared, other);
    ApplyToRowsConcat(rows, [ClearPlaylist(playlistId)], add);
    assert ApplyToRows(rows, [ClearPlaylist(playlistId)]) == cleared;
    OtherRowsClears(rows, playlistId, other);
    if ListedSongIds(Some(remote)).None? {
      assert SongIds(ItemsOrEmpty(remote.songsPage)) == [];
    }
  }

  /**
   * A sync with no browse id to ask for, or whose remote playlist does not load, makes no
   * call: the playlist is not cleared and keeps its songs.
   */
  lemma SyncFailureUntouched(
    playlistId: int, shown: Option<PlaylistWithSongs>,
    request: string -> Option<Result<PlaylistOrAlbumPage, Error>>, fetch: Cursor -> Option<ItemsPage<SongItem>>)
    requires shown.Some? && shown.value.playlist.browseId.Some? ==>
      var r := request(shown.value.playlist.browseId.value);
      r.None? || r.value.Failure?
    ensures SyncSpec(playlistId, shown, request, fetch) == []
  {
    if shown.Some? && shown.value.playlist.browseId.Some? {
      PlaylistScreen.LoadedPageSettles(request(shown.value.playlist.browseId.value), fetch);
    }
  }

  /**
   * A sync whose remote playlist loads makes the playlist list the songs `completed` gathered
   * for it, in order.
   */
  lemma SyncLoaded(
    playlistId: int, shown: Option<PlaylistWithSongs>,
    request: string -> Option<Result<PlaylistOrAlbumPage, Error>>, fetch: Cursor -> Option<ItemsPage<SongItem>>,
    rows: seq<SongPlaylistMap>)
    requires shown.Some? && shown.value.playlist.browseId.Some?
    requires request(shown.value.playlist.browseId.value).Some?
    requires request(shown.value.playlist.browseId.value).value.Success?
    ensures var c := Utils.CompletedSpec(request(shown.value.playlist.browseId.value).value, fetch, Utils.DefaultMaxDepth, false);
      SongsOf(ApplyToRows(rows, SyncSpec(playlistId, shown, request, fetch)), playlistId)
        == SongIds(ItemsOrEmpty(c.result.value.songsPage))
  {
    var r := request(shown.value.playlist.browseId.value);
    PlaylistScreen.LoadedPageSettles(r, fetch);
    Utils.CompletedFlattens(r.value, fetch, Utils.DefaultMaxDepth, false);
    var remote := PlaylistScreen.LoadedPage(r, fetch).value;
    SyncReplaces(playlistId, remote, rows, playlistId);
  }

  /** What confirming the deletion does: the database calls, and whether the screen is left. */
  datatype Deletion = Deletion(dbOps: seq<DbOp>, popped: bool)

  /**
   * Deletion as written: the playlist row, if shown, is deleted, and the back navigation is
   * only referred to, never invoked, so the screen stays.
   */
  function DeleteConfirmedAsWritten(shown: Option<PlaylistWithSongs>): Deletion {
    Deletion(if shown.Some? then [DeletePlaylist(shown.value.playlist)] else [], false)
  }

  /** Deletion as intended: the row is deleted and the screen is left. */
  function DeleteConfirmed(shown: Option<PlaylistWithSongs>): Deletion {
    Deletion(if shown.Some? then [DeletePlaylist(shown.value.playlist)] else [], true)
  }

  /** The screen keeps showing a playlist it has just deleted. */
  predicate ShowsDeletedPlaylist(shown: Option<PlaylistWithSongs>, d: Deletion) {
    shown.Some? && DeletePlaylist(shown.value.playlist) in d.dbOps && !d.popped
  }

  /**
   * As written, confirming the deletion of any shown playlist leaves the screen on it; the
   * database no longer emits that playlist, so nothing replaces the stale copy.
   */
  lemma DeleteAsWrittenShowsDeleted(playlist: Playlist, songs: seq<Song>)
    ensures ShowsDeletedPlaylist(Some(PlaylistWithSongs(playlist, songs)), DeleteConfirmedAsWritten(Some(PlaylistWithSongs(playlist, songs))))
  {
  }

  /** The intended deletion never leaves the screen on the deleted playlist, and deletes it. */
  lemma DeleteConfirmedLeaves(shown: Option<PlaylistWithSongs>)
    ensures !ShowsDeletedPlaylist(shown, DeleteConfirmed(shown))
    ensures shown.Some? ==> DeleteConfirmed(shown).dbOps == [DeletePlaylist(shown.value.playlist)]
    ensures DeleteConfirmed(shown).dbOps == DeleteConfirmedAsWritten(shown).dbOps
  {
  }

  /** The screen's state: the playlist as last emitted by the database, and the calls made. */
  class LocalPlaylistScreenState {
    const playlistId: int
    var playlistWithSongs: Option<PlaylistWithSongs>
    var dbOps: seq<DbOp>
    var onScreen: bool

    constructor (playlistId: int, persisted: Option<PlaylistWithSongs>)
      ensures this.playlistId == playlistId && playlistWithSongs == persisted && dbOps == [] && onScreen
    {
      this.playlistId := playlistId;
      playlistWithSongs := persisted;
      dbOps := [];
      onScreen := true;
    }

    /** `filterNotNull().collect`: a missing playlist leaves the shown one in place. */
    method OnDatabaseEmission(emitted: Option<PlaylistWithSongs>)
      modifies this
      ensures playlistWithSongs == (if emitted.Some? then emitted else old(playlistWithSongs))
      ensures dbOps == old(dbOps) && onScreen == old(onScreen)
    {
      if emitted.Some? {
        playlistWithSongs := emitted;
      }
    }

    /**
     * The sync button: one transaction that, when the remote playlist loads, clears this
     * playlist and adds the remote songs.
     */
    method Sync(request: string -> Option<Result<PlaylistOrAlbumPage, Error>>, fetch: Cursor -> Option<ItemsPage<SongItem>>)
      modifies this
      ensures dbOps == old(dbOps) + SyncSpec(playlistId, playlistWithSongs, request, fetch)
      ensures playlistWithSongs == old(playlistWithSongs) && onScreen == old(onScreen)
    {
      if playlistWithSongs.None? || playlistWithSongs.value.playlist.browseId.None? {
        return;
      }
      var response := request(playlistWithSongs.value.playlist.browseId.value);
      if response.None? {
        return;
      }
      var result, _ := Utils.Completed(response.value, fetch, Utils.DefaultMaxDepth, false);
      if result.Failure? {
        return;
      }
      var remote := result.value;
      var ops := [ClearPlaylist(playlistId)];
      var listed := ListedSongIds(Some(remote));
      if listed.Some? {
        ops := InsertEach(ops, listed.value);
        ops := ops + [InsertSongPlaylistMaps(PlaylistRows(playlistId, listed.value))];
      }
      dbOps := dbOps + ops;
    }

    /** Renaming writes the shown playlist back with the new name, and nothing else changed. */
    method Rename(text: string)
      modifies this
      ensures playlistWithSongs.None? ==> dbOps == old(dbOps)
      ensures playlistWithSongs.Some? ==>
        dbOps == old(dbOps) + [UpdatePlaylist(Playlist(playlistWithSongs.value.playlist.id, text, playlistWithSongs.value.playlist.browseId))]
      ensures playlistWithSongs == old(playlistWithSongs) && onScreen == old(onScreen)
    {
      if playlistWithSongs.Some? {
        dbOps := dbOps + [UpdatePlaylist(playlistWithSongs.value.playlist.(name := text))];
      }
    }

    /** Confirming the deletion, as intended: the row is deleted and the screen is left. */
    method ConfirmDelete()
      modifies this
      ensures |dbOps| >= |old(dbOps)|
      ensures Deletion(dbOps[|old(dbOps)|..], !onScreen) == DeleteConfirmed(playlistWithSongs)
      ensures dbOps[..|old(dbOps)|] == old(dbOps)
      ensures playlistWithSongs == old(playlistWithSongs)
    {
      if playlistWithSongs.Some? {
        dbOps := dbOps + [DeletePlaylist(playlistWithSongs.value.playlist)];
      }
      onScreen := false;
    }
  }
}
