/**
 * MainActivity.kt: where an incoming link comes from, what it leads to, and when the player
 * sheet opens on its own. The catalog requests a link may need (`playlistPage`, `song`) are
 * parameters; navigation and playback are recorded as `Effect`s.
 */
module MainActivity {
  import opened Wrappers
  import opened Innertube
  import Utils

  /** The parts of an `android.net.Uri` the classifier reads; the query keeps its order. */
  datatype Uri = Uri(host: Option<string>, pathSegments: seq<string>, query: seq<(string, string)>)

  /** An intent: its data, its `EXTRA_TEXT` already parsed as a URI, and its boolean extras. */
  datatype Intent = Intent(data: Option<Uri>, extraText: Option<Uri>, extras: Option<map<string, bool>>)

  const ExpandPlayerBottomSheet := "expandPlayerBottomSheet"
  const IsFromPersistentQueue := "isFromPersistentQueue"
  const AlbumPlaylistPrefix := "OLAK5uy_"
  const YoutuBe := "youtu.be"

  /** `Bundle.getBoolean(key)`: false when the key is missing. */
  function GetBoolean(extras: map<string, bool>, key: string): bool {
    key in extras && extras[key]
  }

  /** `intent?.extras?.getBoolean("expandPlayerBottomSheet") == true` */
  predicate LaunchedFromNotification(intent: Option<Intent>) {
    intent.Some? && intent.value.extras.Some? && GetBoolean(intent.value.extras.value, ExpandPlayerBottomSheet)
  }

  /** `intent?.data ?: intent?.getStringExtra(EXTRA_TEXT)?.toUri()` */
  function IncomingLink(intent: Option<Intent>): (r: Option<Uri>)
    ensures intent.None? ==> r.None?
    ensures intent.Some? && intent.value.data.Some? ==> r == intent.value.data
    ensures intent.Some? && intent.value.data.None? ==> r == intent.value.extraText
  {
    if intent.None? then None
    else if intent.value.data.Some? then intent.value.data
    else intent.value.extraText
  }

  /** `getQueryParameter(name)`: the value of the first pair with that name. */
  function QueryParameter(query: seq<(string, string)>, name: string): (r: Option<string>)
    ensures r.Some? ==> (name, r.value) in query
    ensures r.Some? ==> exists i :: 0 <= i < |query| && query[i] == (name, r.value)
                                    && forall j :: 0 <= j < i ==> query[j].0 != name
    ensures r.None? ==> forall i :: 0 <= i < |query| ==> query[i].0 != name
  {
    if query == [] then None
    else if query[0].0 == name then Some(query[0].1)
    else QueryParameter(query[1..], name)
  }

  function FirstSegment(uri: Uri): Option<string> {
    if uri.pathSegments == [] then None else Some(uri.pathSegments[0])
  }

  function LastSegment(uri: Uri): Option<string> {
    if uri.pathSegments == [] then None else Some(uri.pathSegments[|uri.pathSegments| - 1])
  }

  /** What a link asks for, before any catalog request is made. */
  datatype LinkAction =
    | OpenPlaylist(browseId: string)
    | ResolveAlbum(browseId: string)
    | OpenArtist(channelId: string)
    | PlayVideo(videoId: string)
    | NoAction

  /** The `when` over the first path segment. */
  function Classify(uri: Uri): LinkAction {
    var path := FirstSegment(uri);
    if path == Some("playlist") then
      (match QueryParameter(uri.query, "list")
       case None => NoAction
       case Some(playlistId) =>
         if Utils.StartsWith(playlistId, AlbumPlaylistPrefix) then ResolveAlbum("VL" + playlistId)
         else OpenPlaylist("VL" + playlistId))
    else if path == Some("channel") || path == Some("c") then
      (match LastSegment(uri)
       case None => NoAction
       case Some(channelId) => OpenArtist(channelId))
    else
      var videoId :=
        if path == Some("watch") then QueryParameter(uri.query, "v")
        else if uri.host == Some(YoutuBe) then path
        else None;
      match videoId
      case None => NoAction
      case Some(v) => PlayVideo(v)
  }

  /** A link to a playlist opens it under its browse id, or resolves it when it is an album's. */
  lemma ClassifyPlaylist(uri: Uri)
    requires FirstSegment(uri) == Some("playlist")
    ensures QueryParameter(uri.query, "list").None? ==> Classify(uri) == NoAction
    ensures QueryParameter(uri.query, "list").Some? ==>
      var p := QueryParameter(uri.query, "list").value;
      Classify(uri) == (if Utils.StartsWith(p, AlbumPlaylistPrefix) then ResolveAlbum("VL" + p) else OpenPlaylist("VL" + p))
  {
  }

  /**
   * A video is played exactly for `watch` links with a `v` parameter and for `youtu.be` links
   * with a path; a `watch` link without `v` does nothing even on the `youtu.be` host.
   */
  lemma ClassifyVideo(uri: Uri, v: string)
    ensures Classify(uri) == PlayVideo(v) <==>
      (FirstSegment(uri) == Some("watch") && QueryParameter(uri.query, "v") == Some(v))
      || (FirstSegment(uri) == Some(v) && v !in {"playlist", "channel", "c", "watch"} && uri.host == Some(YoutuBe))
  {
  }

  /** What handling a link finally does. */
  datatype Effect = Navigate(route: string) | ForcePlay(mediaId: string)

  /**
   * The actions of the `LaunchedEffect(data)` block: `playlistPage` and `song` stand for the
   * catalog requests (`null` or a failure when they do not succeed).
   */
  function Handle(
    uri: Uri,
    playlistPage: string -> Option<Result<PlaylistOrAlbumPage, Error>>,
    song: string -> Option<Result<Option<SongItem>, Error>>): seq<Effect>
  {
    match Classify(uri)
    case NoAction => []
    case OpenPlaylist(browseId) => [Navigate("playlist/" + browseId)]
    case OpenArtist(channelId) => [Navigate("artist/" + channelId)]
    case ResolveAlbum(browseId) =>
      (match AlbumOfFirstSong(playlistPage(browseId))
       case None => []
       case Some(albumId) => [Navigate("album/" + albumId)])
    case PlayVideo(videoId) =>
      var r := song(videoId);
      if r.Some? && r.value.Success? && r.value.value.Some? then [ForcePlay(r.value.value.value.key)]
      else []
  }

  /** `it.songsPage?.items?.firstOrNull()?.album?.endpoint?.browseId` of a successful page. */
  function AlbumOfFirstSong(response: Option<Result<PlaylistOrAlbumPage, Error>>): Option<string> {
    if response.None? || response.value.Failure? then None
    else
      var songs := ItemsOrEmpty(response.value.value.songsPage);
      if songs == [] then None
      else
        var album := songs[0].album;
        if album.Some? && album.value.endpoint.Some? then album.value.endpoint.value.browseId else None
  }

  /**
   * A link has at most one effect; a navigation goes to an album, an artist, or a playlist
   * whose browse id carries the `VL` prefix; playing needs the link to name a video.
   */
  lemma HandleShape(
    uri: Uri,
    playlistPage: string -> Option<Result<PlaylistOrAlbumPage, Error>>,
    song: string -> Option<Result<Option<SongItem>, Error>>)
    ensures var effects := Handle(uri, playlistPage, song);
      && |effects| <= 1
      && (effects != [] && effects[0].Navigate? ==>
            Utils.StartsWith(effects[0].route, "album/")
            || Utils.StartsWith(effects[0].route, "artist/")
            || Utils.StartsWith(effects[0].route, "playlist/VL"))
      && (effects != [] && effects[0].ForcePlay? ==> Classify(uri).PlayVideo?)
      && (Classify(uri) == NoAction ==> effects == [])
  {
    var effects := Handle(uri, playlistPage, song);
    match Classify(uri)
    case NoAction =>
    case OpenPlaylist(browseId) =>
      assert ("playlist/" + browseId)[..11] == "playlist/" + browseId[..2];
    case OpenArtist(channelId) =>
      assert ("artist/" + channelId)[..7] == "artist/";
    case ResolveAlbum(browseId) =>
      var a := AlbumOfFirstSong(playlistPage(browseId));
      if a.Some? {
        assert ("album/" + a.value)[..6] == "album/";
      }
    case PlayVideo(videoId) =>
  }

  /** A state of an item the player moved to, as the sheet listener sees it. */
  datatype MediaItem = MediaItem(mediaId: string, extras: Option<map<string, bool>>)

  datatype TransitionReason = PlaylistChanged | OtherReason

  /** The activity's state that outlives a single callback. */
  class Activity {
    var intent: Option<Intent>
    var data: Option<Uri>
    var isPlayerOpen: bool
    const launchedFromNotification: bool

    /** `onCreate`: the launch flag and the incoming link are read from the launching intent. */
    constructor (launching: Option<Intent>)
      ensures intent == launching
      ensures launchedFromNotification == LaunchedFromNotification(launching)
      ensures data == IncomingLink(launching)
      ensures !isPlayerOpen
    {
      intent := launching;
      launchedFromNotification := LaunchedFromNotification(launching);
      data := IncomingLink(launching);
      isPlayerOpen := false;
    }

    /** `onNewIntent`: the new intent's link replaces the pending one by the same rule. */
    method OnNewIntent(next: Option<Intent>)
      modifies this
      ensures data == IncomingLink(next)
      ensures intent == old(intent) && isPlayerOpen == old(isPlayerOpen)
    {
      data := IncomingLink(next);
    }

    /**
     * The player became available: with nothing playing the sheet closes; with something
     * playing a closed sheet opens only for a launch from the notification, which also
     * clears the intent's extras.
     */
    method OnPlayerAvailable(hasCurrentItem: bool)
      modifies this
      ensures !hasCurrentItem ==> !isPlayerOpen && intent == old(intent)
      ensures hasCurrentItem && old(isPlayerOpen) ==> isPlayerOpen && intent == old(intent)
      ensures hasCurrentItem && !old(isPlayerOpen) ==> isPlayerOpen == launchedFromNotification
      ensures hasCurrentItem && !old(isPlayerOpen) && launchedFromNotification && old(intent).Some? ==>
        intent == Some(old(intent).value.(extras := Some(map[])))
      ensures !(hasCurrentItem && !old(isPlayerOpen) && launchedFromNotification) ==> intent == old(intent)
      ensures data == old(data)
    {
      if !hasCurrentItem {
        if isPlayerOpen {
          isPlayerOpen := false;
        }
      } else {
        if !isPlayerOpen {
          if launchedFromNotification {
            if intent.Some? {
              intent := Some(intent.value.(extras := Some(map[])));
            }
            isPlayerOpen := true;
          } else {
            isPlayerOpen := false;
          }
        }
      }
    }

    /**
     * A transition because the playlist changed, to an item, opens the sheet unless the item
     * is flagged as restored from the persistent queue, and closes it if it is.
     */
    method OnMediaItemTransition(item: Option<MediaItem>, reason: TransitionReason)
      modifies this
      ensures reason == PlaylistChanged && item.Some? ==>
        isPlayerOpen == !(item.value.extras.Some? && GetBoolean(item.value.extras.value, IsFromPersistentQueue))
      ensures !(reason == PlaylistChanged && item.Some?) ==> isPlayerOpen == old(isPlayerOpen)
      ensures intent == old(intent) && data == old(data)
    {
      if reason == PlaylistChanged && item.Some? {
        var flag := if item.value.extras.Some? then Some(GetBoolean(item.value.extras.value, IsFromPersistentQueue)) else None;
        isPlayerOpen := flag != Some(true);
      }
    }

    /** `LaunchedEffect(data)`: a pending link is handled once, then cleared. */
    method HandleData(
      playlistPage: string -> Option<Result<PlaylistOrAlbumPage, Error>>,
      song: string -> Option<Result<Option<SongItem>, Error>>)
      returns (effects: seq<Effect>)
      modifies this
      ensures old(data).None? ==> effects == []
      ensures old(data).Some? ==> effects == Handle(old(data).value, playlistPage, song)
      ensures data.None?
      ensures intent == old(intent) && isPlayerOpen == old(isPlayerOpen)
    {
      effects := [];
      if data.None? {
        return;
      }
      var uri := data.value;
      effects := Handle(uri, playlistPage, song);
      data := None;
    }
  }

  /**
   * Once the sheet opened for a launch from the notification, the intent no longer carries
   * the flag, so an activity recreated from that intent does not open the sheet again.
   */
  lemma NotificationOpensOnce(launching: Intent)
    ensures !LaunchedFromNotification(Some(launching.(extras := Some(map[]))))
  {
  }
}
