/**
 * The local library's rows (the Room entities the screens build) and the database calls the
 * screens make. The database itself is not modelled: every call is recorded, in order, as a
 * `DbOp`; `ApplyToRows` gives the calls that touch playlist membership their meaning.
 */
module Library {
  import opened Wrappers

  /** A timestamp in milliseconds (`System.currentTimeMillis()`), passed in by the caller. */
  type Millis = int

  datatype Artist = Artist(
    id: string,
    name: Option<string>,
    thumbnailUrl: Option<string>,
    timestamp: Option<Millis>,
    bookmarkedAt: Option<Millis>)

  datatype Album = Album(
    id: string,
    title: Option<string>,
    thumbnailUrl: Option<string>,
    year: Option<string>,
    authorsText: Option<string>,
    shareUrl: Option<string>,
    timestamp: Option<Millis>,
    bookmarkedAt: Option<Millis>)

  datatype Playlist = Playlist(id: int, name: string, browseId: Option<string>)

  /** A locally stored song; `id` is its media id. */
  datatype Song = Song(id: string, title: string)

  datatype SongAlbumMap = SongAlbumMap(songId: string, albumId: string, position: int)

  datatype SongPlaylistMap = SongPlaylistMap(songId: string, playlistId: int, position: int)

  /** One database call, recorded instead of performed. */
  datatype DbOp =
    | UpsertArtist(artist: Artist)
    | UpdateArtist(artist: Artist)
    | ClearAlbum(albumId: string)
    | UpsertAlbum(album: Album, songAlbumMaps: seq<SongAlbumMap>)
    | UpdateAlbum(album: Album)
    | InsertSong(mediaId: string)
    | InsertPlaylist(playlist: Playlist)
    | InsertSongPlaylistMaps(maps: seq<SongPlaylistMap>)
    | ClearPlaylist(playlistId: int)
    | UpdatePlaylist(playlist: Playlist)
    | DeletePlaylist(playlist: Playlist)

  /**
   * The bookmark button of the artist and album screens: an unbookmarked entity is
   * bookmarked now, a bookmarked one is unbookmarked.
   */
  function ToggledBookmark(bookmarkedAt: Option<Millis>, now: Millis): (r: Option<Millis>)
    ensures r.Some? <==> bookmarkedAt.None?
    ensures r.Some? ==> r.value == now
  {
    if bookmarkedAt.None? then Some(now) else None
  }

  /** Toggling twice unbookmarks whatever the first toggle bookmarked. */
  lemma ToggledBookmarkTwice(bookmarkedAt: Option<Millis>, now1: Millis, now2: Millis)
    ensures bookmarkedAt.None? ==> ToggledBookmark(ToggledBookmark(bookmarkedAt, now1), now2) == None
    ensures bookmarkedAt.Some? ==> ToggledBookmark(ToggledBookmark(bookmarkedAt, now1), now2) == Some(now2)
  {
  }

  /**
   * `mapIndexed { index, id -> SongPlaylistMap(id, playlistId, index) }`: one row per song,
   * positioned by its index in the list.
   */
  function PlaylistRows(playlistId: int, songIds: seq<string>): (r: seq<SongPlaylistMap>)
    ensures |r| == |songIds|
    ensures forall i :: 0 <= i < |r| ==>
      r[i].songId == songIds[i] && r[i].playlistId == playlistId && r[i].position == i
  {
    seq(|songIds|, i requires 0 <= i < |songIds| => SongPlaylistMap(songIds[i], playlistId, i))
  }

  /** The song ids of a playlist's rows, in row order: how a playlist's rows are read back. */
  function SongsOf(rows: seq<SongPlaylistMap>, playlistId: int): seq<string>
  {
    if rows == [] then []
    else (if rows[0].playlistId == playlistId then [rows[0].songId] else [])
         + SongsOf(rows[1..], playlistId)
  }

  /** Reading back the rows built for a playlist gives its songs, in order. */
  lemma {:induction false} SongsOfPlaylistRows(playlistId: int, songIds: seq<string>)
    ensures SongsOf(PlaylistRows(playlistId, songIds), playlistId) == songIds
  {
    if songIds != [] {
      var rows := PlaylistRows(playlistId, songIds);
      var tail := PlaylistRows(playlistId, songIds[1..]);
      SongsOfPlaylistRows(playlistId, songIds[1..]);
      SongsOfShifted(rows[1..], tail, playlistId);
    }
  }

  /** Positions do not affect `SongsOf`. */
  lemma {:induction false} SongsOfShifted(a: seq<SongPlaylistMap>, b: seq<SongPlaylistMap>, playlistId: int)
    requires |a| == |b|
    requires forall i :: 0 <= i < |a| ==> a[i].songId == b[i].songId && a[i].playlistId == b[i].playlistId
    ensures SongsOf(a, playlistId) == SongsOf(b, playlistId)
  {
    if a != [] {
      SongsOfShifted(a[1..], b[1..], playlistId);
    }
  }

  /** The rows of playlists other than `playlistId`. */
  function OtherRows(rows: seq<SongPlaylistMap>, playlistId: int): seq<SongPlaylistMap>
  {
    if rows == [] then []
    else (if rows[0].playlistId != playlistId then [rows[0]] else [])
         + OtherRows(rows[1..], playlistId)
  }

  /**
   * What the recorded calls do to the song-playlist membership table: `clearPlaylist` deletes
   * that playlist's rows, `insertSongPlaylistMaps` appends rows, and no other call touches it.
   */
  function ApplyToRows(rows: seq<SongPlaylistMap>, ops: seq<DbOp>): seq<SongPlaylistMap>
    decreases |ops|
  {
    if ops == [] then rows
    else
      var next := match ops[0]
        case ClearPlaylist(p) => OtherRows(rows, p)
        case InsertSongPlaylistMaps(maps) => rows + maps
        case _ => rows;
      ApplyToRows(next, ops[1..])
  }

  lemma {:induction false} SongsOfAppend(a: seq<SongPlaylistMap>, b: seq<SongPlaylistMap>, playlistId: int)
    ensures SongsOf(a + b, playlistId) == SongsOf(a, playlistId) + SongsOf(b, playlistId)
  {
    if a != [] {
      assert (a + b)[1..] == a[1..] + b;
      SongsOfAppend(a[1..], b, playlistId);
    } else {
      assert a + b == b;
    }
  }

  /** After clearing a playlist it has no rows, and every other playlist keeps its rows. */
  lemma {:induction false} OtherRowsClears(rows: seq<SongPlaylistMap>, cleared: int, other: int)
    ensures SongsOf(OtherRows(rows, cleared), cleared) == []
    ensures other != cleared ==> SongsOf(OtherRows(rows, cleared), other) == SongsOf(rows, other)
  {
    if rows != [] {
      OtherRowsClears(rows[1..], cleared, other);
      var head := if rows[0].playlistId != cleared then [rows[0]] else [];
      SongsOfAppend(head, OtherRows(rows[1..], cleared), cleared);
      SongsOfAppend(head, OtherRows(rows[1..], cleared), other);
    }
  }

  /** Calls that are neither clears nor membership inserts leave the table as it is. */
  lemma {:induction false} ApplyToRowsSkips(rows: seq<SongPlaylistMap>, ops: seq<DbOp>)
    requires forall i :: 0 <= i < |ops| ==> !ops[i].ClearPlaylist? && !ops[i].InsertSongPlaylistMaps?
    ensures ApplyToRows(rows, ops) == rows
  {
    if ops != [] {
      ApplyToRowsSkips(rows, ops[1..]);
    }
  }

  lemma {:induction false} ApplyToRowsConcat(rows: seq<SongPlaylistMap>, ops1: seq<DbOp>, ops2: seq<DbOp>)
    ensures ApplyToRows(rows, ops1 + ops2) == ApplyToRows(ApplyToRows(rows, ops1), ops2)
    decreases |ops1|
  {
    if ops1 != [] {
      assert (ops1 + ops2)[0] == ops1[0];
      assert (ops1 + ops2)[1..] == ops1[1..] + ops2;
      var next := match ops1[0]
        case ClearPlaylist(p) => OtherRows(rows, p)
        case InsertSongPlaylistMaps(maps) => rows + maps
        case _ => rows;
      ApplyToRowsConcat(next, ops1[1..], ops2);
    } else {
      assert ops1 + ops2 == ops2;
    }
  }
  /** `InsertSong` for each media id, in order. */
  function InsertSongs(mediaIds: seq<string>): (r: seq<DbOp>)
    ensures |r| == |mediaIds| && forall i :: 0 <= i < |r| ==> r[i] == InsertSong(mediaIds[i])
  {
    seq(|mediaIds|, i requires 0 <= i < |mediaIds| => InsertSong(mediaIds[i]))
  }

  /** `onEach(Database::insert)`: the calls so far, followed by one insert per song, in order. */
  method InsertEach(ops: seq<DbOp>, mediaIds: seq<string>) returns (r: seq<DbOp>)
    ensures r == ops + InsertSongs(mediaIds)
  {
    r := ops;
    var i := 0;
    while i < |mediaIds|
      invariant 0 <= i <= |mediaIds|
      invariant r == ops + InsertSongs(mediaIds[..i])
    {
      r := r + [InsertSong(mediaIds[i])];
      assert InsertSongs(mediaIds[..i + 1]) == InsertSongs(mediaIds[..i]) + [InsertSong(mediaIds[i])];
      i := i + 1;
    }
    assert mediaIds[..i] == mediaIds;
  }

  /** The song ids the rows written by a call refer to. */
  function MappedSongs(op: DbOp): seq<string> {
    match op
    case UpsertAlbum(_, maps) => seq(|maps|, i requires 0 <= i < |maps| => maps[i].songId)
    case InsertSongPlaylistMaps(maps) => seq(|maps|, i requires 0 <= i < |maps| => maps[i].songId)
    case _ => []
  }

  /**
   * Every membership row a call writes refers to a song inserted by an earlier call of the
   * same sequence, as the foreign keys of the album and playlist maps demand.
   */
  predicate SongsInsertedBeforeMaps(ops: seq<DbOp>) {
    forall j, id :: 0 <= j < |ops| && id in MappedSongs(ops[j]) ==>
      exists i :: 0 <= i < j && ops[i] == InsertSong(id)
  }

  /**
   * Calls that write no membership rows, then the songs' inserts, then one call whose rows
   * refer only to those songs, keep every row's song inserted before it.
   */
  lemma InsertsThenMaps(prefix: seq<DbOp>, mediaIds: seq<string>, last: DbOp)
    requires forall j :: 0 <= j < |prefix| ==> MappedSongs(prefix[j]) == []
    requires forall id :: id in MappedSongs(last) ==> id in mediaIds
    ensures SongsInsertedBeforeMaps(prefix + InsertSongs(mediaIds) + [last])
  {
    var ops := prefix + InsertSongs(mediaIds) + [last];
    forall j | 0 <= j < |ops| - 1
      ensures MappedSongs(ops[j]) == []
    {
      if j < |prefix| {
        assert ops[j] == prefix[j];
      } else {
        assert ops[j] == InsertSong(mediaIds[j - |prefix|]);
      }
    }
    forall j, id | 0 <= j < |ops| && id in MappedSongs(ops[j])
      ensures exists i :: 0 <= i < j && ops[i] == InsertSong(id)
    {
      assert j == |ops| - 1;
      var k :| 0 <= k < |mediaIds| && mediaIds[k] == id;
      assert ops[|prefix| + k] == InsertSong(id);
    }
  }

  /**
   * Adding listed songs to a playlist, as import and sync both do: each song is inserted, then
   * one membership row per song at its list position; nothing when there is no list.
   */
  function AddSongsOps(playlistId: int, songIds: Option<seq<string>>): seq<DbOp> {
    if songIds.None? then []
    else InsertSongs(songIds.value) + [InsertSongPlaylistMaps(PlaylistRows(playlistId, songIds.value))]
  }

  lemma {:induction false} SongsOfNone(rows: seq<SongPlaylistMap>, playlistId: int)
    requires forall i :: 0 <= i < |rows| ==> rows[i].playlistId != playlistId
    ensures SongsOf(rows, playlistId) == []
  {
    if rows != [] {
      SongsOfNone(rows[1..], playlistId);
    }
  }

  /**
   * After a call that writes no membership rows, adding songs keeps every row's song inserted
   * before it; the playlist gains exactly the listed songs at its end, and no other playlist
   * changes.
   */
  lemma AddSongsOpsEffect(first: DbOp, playlistId: int, songIds: Option<seq<string>>, rows: seq<SongPlaylistMap>, other: int)
    requires MappedSongs(first) == []
    ensures SongsInsertedBeforeMaps([first] + AddSongsOps(playlistId, songIds))
    ensures SongsOf(ApplyToRows(rows, AddSongsOps(playlistId, songIds)), playlistId)
      == SongsOf(rows, playlistId) + (if songIds.Some? then songIds.value else [])
    ensures other != playlistId ==>
      SongsOf(ApplyToRows(rows, AddSongsOps(playlistId, songIds)), other) == SongsOf(rows, other)
  {
    if songIds.None? {
      var ops := [first];
      assert [first] + AddSongsOps(playlistId, songIds) == ops;
      assert SongsOf(rows, playlistId) + [] == SongsOf(rows, playlistId);
    } else {
      var ids := songIds.value;
      var maps := PlaylistRows(playlistId, ids);
      var last := InsertSongPlaylistMaps(maps);
      forall id | id in MappedSongs(last)
        ensures id in ids
      {
        var k :| 0 <= k < |maps| && MappedSongs(last)[k] == id;
        assert ids[k] == id;
      }
      InsertsThenMaps([first], ids, last);
      assert [first] + AddSongsOps(playlistId, songIds) == [first] + InsertSongs(ids) + [last];
      ApplyToRowsConcat(rows, InsertSongs(ids), [last]);
      ApplyToRowsSkips(rows, InsertSongs(ids));
      SongsOfAppend(rows, maps, playlistId);
      SongsOfPlaylistRows(playlistId, ids);
      SongsOfAppend(rows, maps, other);
      if other != playlistId {
        SongsOfNone(maps, other);
      }
    }
  }
}
