/**
 * ui/screens/builtinplaylist/BuiltInPlaylistSongs.kt: which songs the Favorites and Offline
 * built-in playlists list, and the calls of the shuffle, enqueue and song-click buttons. The
 * media cache is an opaque oracle; the shuffle's random order is a parameter.
 */
module BuiltInPlaylistSongs {
  import opened Wrappers
  import opened Library
  import opened PlayerService

  datatype BuiltInPlaylist = Favorites | Offline

  /** `SongWithContentLength`: a library song and the byte length of its audio, when known. */
  datatype SongWithContentLength = SongWithContentLength(song: Song, contentLength: Option<int>)

  /** `cache.isCached(id, position, length)`: whether that byte range of a song is cached. */
  type IsCached = (string, int, int) -> bool

  /**
   * The offline test: the length is known and, through the bound service's cache, the whole
   * song from byte 0 is cached; with no service or no cache the answer is `false`.
   */
  predicate KeptOffline(cache: Option<IsCached>, s: SongWithContentLength) {
    s.contentLength.Some? && cache.Some? && cache.value(s.song.id, 0, s.contentLength.value)
  }

  /** `filter { … }.map(SongWithContentLength::song)` */
  function OfflineSongs(cache: Option<IsCached>, songs: seq<SongWithContentLength>): seq<Song>
    decreases |songs|
  {
    if songs == [] then []
    else (if KeptOffline(cache, songs[0]) then [songs[0].song] else []) + OfflineSongs(cache, songs[1..])
  }

  /** The positions of the entries that pass the offline test, in increasing order. */
  function KeptPositions(cache: Option<IsCached>, songs: seq<SongWithContentLength>): (r: seq<int>)
    ensures forall k :: 0 <= k < |r| ==> 0 <= r[k] < |songs|
    decreases |songs|
  {
    if songs == [] then []
    else
      var rest := KeptPositions(cache, songs[1..]);
      (if KeptOffline(cache, songs[0]) then [0] else []) + seq(|rest|, k requires 0 <= k < |rest| => rest[k] + 1)
  }

  /**
   * The offline list is read off the kept positions, in library order: they strictly
   * increase, each holds an entry that passes the test, and the list holds its songs.
   */
  lemma {:induction false} OfflineSongsAtKeptPositions(cache: Option<IsCached>, songs: seq<SongWithContentLength>)
    ensures var r := OfflineSongs(cache, songs);
      var idx := KeptPositions(cache, songs);
      && |idx| == |r| <= |songs|
      && (forall k, l :: 0 <= k < l < |idx| ==> idx[k] < idx[l])
      && (forall k :: 0 <= k < |idx| ==> KeptOffline(cache, songs[idx[k]]) && r[k] == songs[idx[k]].song)
    decreases |songs|
  {
    if songs != [] {
      var tail := songs[1..];
      OfflineSongsAtKeptPositions(cache, tail);
      var rest := KeptPositions(cache, tail);
      forall k | 0 <= k < |rest|
        ensures songs[rest[k] + 1] == tail[rest[k]]
      {
      }
    }
  }

  /** Every entry that passes the test is at a kept position: nothing that passes is dropped. */
  lemma {:induction false} KeptPositionsComplete(cache: Option<IsCached>, songs: seq<SongWithContentLength>, i: int)
    requires 0 <= i < |songs| && KeptOffline(cache, songs[i])
    ensures i in KeptPositions(cache, songs)
    decreases |songs|
  {
    var idx := KeptPositions(cache, songs);
    if i > 0 {
      var tail := songs[1..];
      assert tail[i - 1] == songs[i];
      KeptPositionsComplete(cache, tail, i - 1);
      var rest := KeptPositions(cache, tail);
      var k :| 0 <= k < |rest| && rest[k] == i - 1;
      var off := if KeptOffline(cache, songs[0]) then 1 else 0;
      assert idx[off + k] == i;
    } else {
      assert idx[0] == 0;
    }
  }

  /** A song is listed offline exactly when some library entry of it passes the test. */
  lemma {:induction false} OfflineSongsMembers(cache: Option<IsCached>, songs: seq<SongWithContentLength>, song: Song)
    ensures song in OfflineSongs(cache, songs) <==>
      exists i :: 0 <= i < |songs| && songs[i].song == song && KeptOffline(cache, songs[i])
    decreases |songs|
  {
    if songs != [] {
      OfflineSongsMembers(cache, songs[1..], song);
      if song in OfflineSongs(cache, songs[1..]) {
        var i :| 0 <= i < |songs[1..]| && songs[1..][i].song == song && KeptOffline(cache, songs[1..][i]);
        assert songs[i + 1] == songs[1..][i];
      }
      if exists i :: 0 <= i < |songs| && songs[i].song == song && KeptOffline(cache, songs[i]) {
        var i :| 0 <= i < |songs| && songs[i].song == song && KeptOffline(cache, songs[i]);
        if i > 0 {
          assert songs[1..][i - 1] == songs[i];
        }
      }
    }
  }

  /** With no bound service (or no cache) nothing is offline, however many songs there are. */
  lemma {:induction false} NoCacheNothingOffline(songs: seq<SongWithContentLength>)
    ensures OfflineSongs(None, songs) == []
    decreases |songs|
  {
    if songs != [] {
      NoCacheNothingOffline(songs[1..]);
    }
  }

  /**
   * The list a built-in playlist shows: the favorites as the database lists them, or the
   * offline selection of the songs with a content length.
   */
  function ShownSongs(
    playlist: BuiltInPlaylist, favorites: seq<Song>, withContentLength: seq<SongWithContentLength>,
    cache: Option<IsCached>): (r: seq<Song>)
    ensures playlist == Favorites ==> r == favorites
    ensures playlist == Offline ==> r == OfflineSongs(cache, withContentLength)
  {
    match playlist
    case Favorites => favorites
    case Offline => OfflineSongs(cache, withContentLength)
  }

  /** `songs.map(Song::asMediaItem)`, a media item being known by its media id, the song's id. */
  function MediaIds(songs: seq<Song>): (r: seq<string>)
    ensures |r| == |songs|
    ensures forall i :: 0 <= i < |r| ==> r[i] == songs[i].id
  {
    seq(|songs|, i requires 0 <= i < |songs| => songs[i].id)
  }

  /** Taking the element at `j` out of a sequence takes one copy of it out of its multiset. */
  lemma RemoveAtMultiset<T>(s: seq<T>, j: int)
    requires 0 <= j < |s|
    ensures multiset(s[..j] + s[j + 1..]) == multiset(s) - multiset{s[j]}
  {
    assert s == s[..j] + [s[j]] + s[j + 1..];
  }

  /** The media ids of a list with one song taken out are its media ids with that one taken out. */
  lemma MediaIdsRemoveAt(s: seq<Song>, j: int)
    requires 0 <= j < |s|
    ensures MediaIds(s[..j] + s[j + 1..]) == MediaIds(s)[..j] + MediaIds(s)[j + 1..]
  {
  }

  /**
   * Putting one song back: when the media ids of `a` without its head are a permutation of
   * those of `b` without a copy of that head, the ids of `a` are a permutation of those of `b`.
   */
  lemma MediaIdsPutBack(a: seq<Song>, b: seq<Song>, j: int)
    requires a != [] && 0 <= j < |b| && b[j] == a[0]
    requires multiset(MediaIds(a[1..])) == multiset(MediaIds(b[..j] + b[j + 1..]))
    ensures multiset(MediaIds(a)) == multiset(MediaIds(b))
  {
    var ids := MediaIds(b);
    MediaIdsRemoveAt(b, j);
    RemoveAtMultiset(ids, j);
    assert MediaIds(a) == [a[0].id] + MediaIds(a[1..]);
  }

  /** Songs that are a permutation of each other have media ids that are too. */
  lemma {:induction false} MediaIdsPermutation(a: seq<Song>, b: seq<Song>)
    requires multiset(a) == multiset(b)
    ensures multiset(MediaIds(a)) == multiset(MediaIds(b))
    decreases |a|
  {
    if a == [] {
      assert |b| == |multiset(b)| == 0;
    } else {
      assert a[0] in multiset(b);
      var j :| 0 <= j < |b| && b[j] == a[0];
      RemoveAtMultiset(b, j);
      assert a == [a[0]] + a[1..];
      MediaIdsPermutation(a[1..], b[..j] + b[j + 1..]);
      MediaIdsPutBack(a, b, j);
    }
  }

  /**
   * The shuffle button, shown only over a non-empty list: the radio stops and the list, in
   * the random order `shuffled` (a permutation of it), plays from its start, each song of
   * the list exactly as often as it is listed.
   */
  function ShuffleClick(bound: bool, songs: seq<Song>, shuffled: seq<Song>): (r: Option<seq<PlayerCall>>)
    requires multiset(shuffled) == multiset(songs)
    ensures r.Some? <==> |songs| > 0
    ensures r.Some? && !bound ==> r.value == []
    ensures r.Some? && bound ==>
      && |r.value| == 2 && r.value[0] == StopRadio && r.value[1].ForcePlayFromBeginning?
      && r.value[1].mediaIds == MediaIds(shuffled)
      && multiset(r.value[1].mediaIds) == multiset(MediaIds(songs))
  {
    if |songs| == 0 then None
    else
      MediaIdsPermutation(shuffled, songs);
      Some(IfBound(bound, [StopRadio, ForcePlayFromBeginning(MediaIds(shuffled))]))
  }

  /** The enqueue button, shown only over a non-empty list: the whole list, in order, is queued. */
  function EnqueueClick(bound: bool, songs: seq<Song>): (r: Option<seq<PlayerCall>>)
    ensures r.Some? <==> |songs| > 0
    ensures r.Some? && bound ==> r.value == [Enqueue(MediaIds(songs))]
    ensures r.Some? && !bound ==> r.value == []
  {
    if |songs| == 0 then None else Some(IfBound(bound, [Enqueue(MediaIds(songs))]))
  }

  /**
   * A click on the song at `index`: the radio stops and the whole list is played starting
   * at that song.
   */
  function SongClick(bound: bool, songs: seq<Song>, index: int): (r: seq<PlayerCall>)
    requires 0 <= index < |songs|
    ensures !bound ==> r == []
    ensures bound ==> |r| == 2 && r[0] == StopRadio && r[1] == ForcePlayAtIndex(MediaIds(songs), index)
    ensures bound ==> r[1].mediaIds[r[1].index] == songs[index].id
  {
    IfBound(bound, [StopRadio, ForcePlayAtIndex(MediaIds(songs), index)])
  }
}
