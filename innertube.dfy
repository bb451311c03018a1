/**
 * The catalog service's value types, as far as the screens and `completed` read them.
 * Every field the screens do not read is left out; requests are not modelled here: each
 * caller receives the service's answers as parameters.
 */
module Innertube {
  import opened Wrappers

  /** An opaque continuation token. */
  type Cursor = string

  /** `Innertube.ItemsPage<T>`: `items == None` (never loaded) differs from `Some([])`. */
  datatype ItemsPage<T> = ItemsPage(items: Option<seq<T>>, continuation: Option<Cursor>)

  /** A browse endpoint: the target id and the optional request parameters. */
  datatype Endpoint = Endpoint(browseId: Option<string>, params: Option<string>)

  /**
   * `Innertube.Info`: a display name and the endpoint it links to. The endpoint is a browse
   * endpoint for albums and artists; on a song's `info` it is the song's watch endpoint, whose
   * video id and parameters are carried in the same two fields.
   */
  datatype Info = Info(name: Option<string>, endpoint: Option<Endpoint>)

  datatype Thumbnail = Thumbnail(url: string)

  /**
   * `Innertube.SongItem`; `key` is the video id, which is also the media id it plays under.
   * Every field is kept, so two items are equal exactly when the Kotlin data classes are.
   */
  datatype SongItem = SongItem(
    key: string, info: Option<Info>, authors: Option<seq<Info>>, album: Option<Info>,
    durationText: Option<string>, explicit: bool, thumbnail: Option<Thumbnail>)

  /** `Innertube.AlbumItem` (also used for singles); only its key is read. */
  datatype AlbumItem = AlbumItem(key: string)

  /** `Innertube.PlaylistOrAlbumPage`. */
  datatype PlaylistOrAlbumPage = PlaylistOrAlbumPage(
    title: Option<string>,
    authors: Option<seq<Info>>,
    year: Option<string>,
    thumbnail: Option<Thumbnail>,
    url: Option<string>,
    songsPage: Option<ItemsPage<SongItem>>,
    otherVersions: Option<seq<AlbumItem>>)

  /** `Innertube.ArtistPage`: embedded first results and the endpoints that list them all. */
  datatype ArtistPage = ArtistPage(
    name: Option<string>,
    thumbnail: Option<Thumbnail>,
    songs: Option<seq<SongItem>>,
    songsEndpoint: Option<Endpoint>,
    albums: Option<seq<AlbumItem>>,
    albumsEndpoint: Option<Endpoint>,
    singles: Option<seq<AlbumItem>>,
    singlesEndpoint: Option<Endpoint>)

  /** `Innertube.RelatedPage`: the sections of the quick-picks screen. */
  datatype RelatedPage = RelatedPage(
    songs: Option<seq<SongItem>>,
    albums: Option<seq<AlbumItem>>,
    artists: Option<seq<string>>,
    playlists: Option<seq<string>>)

  /** A request the screens send, recorded instead of performed. */
  datatype Request =
    | ContinuationRequest(continuation: Cursor)
    | BrowseRequest(browseId: string, params: Option<string>)

  /** The items of a page, `orEmpty()`. */
  function ItemsOrEmpty<T>(p: Option<ItemsPage<T>>): (r: seq<T>)
    ensures p.Some? && p.value.items.Some? ==> r == p.value.items.value
    ensures p.None? || p.value.items.None? ==> r == []
  {
    if p.Some? && p.value.items.Some? then p.value.items.value else []
  }

  /** The media ids of songs, in order (`asMediaItem` keeps a song's key as its media id). */
  function SongIds(songs: seq<SongItem>): (r: seq<string>)
    ensures |r| == |songs| && forall i :: 0 <= i < |r| ==> r[i] == songs[i].key
  {
    seq(|songs|, i requires 0 <= i < |songs| => songs[i].key)
  }

  /** `page?.songsPage?.items?.map { it.asMediaItem.mediaId }`: the listed songs' media ids. */
  function ListedSongIds(page: Option<PlaylistOrAlbumPage>): (r: Option<seq<string>>)
    ensures r.Some? <==> page.Some? && page.value.songsPage.Some? && page.value.songsPage.value.items.Some?
    ensures r.Some? ==> r.value == SongIds(page.value.songsPage.value.items.value)
  {
    if page.Some? && page.value.songsPage.Some? && page.value.songsPage.value.items.Some? then
      Some(SongIds(page.value.songsPage.value.items.value))
    else None
  }
}
