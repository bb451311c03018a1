/**
 * ui/screens/home/QuickPicks.kt: when the related page is (re)fetched as the trending song
 * changes, which video seeds it, the list of quick picks shown, the three display states of
 * the screen, and a click on a pick. The catalog request is a parameter.
 */
module QuickPicks {
  import opened Wrappers
  import opened Innertube
  import opened Library
  import opened PlayerService

  /** The video that seeds the related page when there is no trending song. */
  const DefaultSeed := "J7p4bzqLvCw"

  /** `Result<Innertube.RelatedPage?>?`: the persisted answer of the related-page request. */
  type RelatedResult = Option<Result<Option<RelatedPage>, Error>>

  /** The two persisted variables of the screen. */
  datatype Persisted = Persisted(trending: Option<Song>, relatedPageResult: RelatedResult)

  /** `song?.id` */
  function SongId(song: Option<Song>): (r: Option<string>)
    ensures r.Some? <==> song.Some?
    ensures song.Some? ==> r.value == song.value.id
  {
    if song.None? then None else Some(song.value.id)
  }

  /**
   * The refetch test of the `collect` callback: no song and no answer yet, or the emitted song
   * is not the trending one (by id, `null` counting as an id of its own).
   */
  predicate MustRefetch(p: Persisted, song: Option<Song>) {
    (song.None? && p.relatedPageResult.None?) || SongId(p.trending) != SongId(song)
  }

  /** The video id the related page is requested for. */
  function Seed(song: Option<Song>): (r: string)
    ensures song.Some? ==> r == song.value.id
    ensures song.None? ==> r == DefaultSeed
  {
    song.GetOr(Song(DefaultSeed, "")).id
  }

  /** What one emission leaves, and the video id it requested the related page for, if any. */
  datatype Emitted = Emitted(persisted: Persisted, request: Option<string>)

  /**
   * One emission of the trending song: the related page is requested for its seed when the
   * test holds, and the song becomes the trending one either way.
   */
  function Collected(p: Persisted, song: Option<Song>, relatedPage: string -> RelatedResult): Emitted {
    if MustRefetch(p, song) then Emitted(Persisted(song, relatedPage(Seed(song))), Some(Seed(song)))
    else Emitted(Persisted(song, p.relatedPageResult), None)
  }

  /**
   * An emission requests the related page exactly when there is no answer and no song, or the
   * song's id is not the trending one's; the request is for the emitted song, or the default
   * seed when there is none; and the emitted song is trending afterwards whatever happened.
   */
  lemma CollectedCases(p: Persisted, song: Option<Song>, relatedPage: string -> RelatedResult)
    ensures var e := Collected(p, song, relatedPage);
      && e.persisted.trending == song
      && (e.request.Some? <==>
            (song.None? && p.relatedPageResult.None?)
            || (song.Some? && (p.trending.None? || p.trending.value.id != song.value.id))
            || (song.None? && p.trending.Some?))
      && (e.request.Some? ==> e.request.value == (if song.Some? then song.value.id else DefaultSeed)
                              && e.persisted.relatedPageResult == relatedPage(e.request.value))
      && (e.request.None? ==> e.persisted.relatedPageResult == p.relatedPageResult)
  {
  }

  /** The persisted variables after a sequence of emissions, and the requests made, in order. */
  datatype Collection = Collection(persisted: Persisted, requests: seq<string>)

  function CollectAll(p: Persisted, songs: seq<Option<Song>>, relatedPage: string -> RelatedResult): Collection
    decreases |songs|
  {
    if songs == [] then Collection(p, [])
    else
      var before := CollectAll(p, songs[..|songs| - 1], relatedPage);
      var e := Collected(before.persisted, songs[|songs| - 1], relatedPage);
      Collection(e.persisted, before.requests + (if e.request.Some? then [e.request.value] else []))
  }

  /** `n` emissions of the same song. */
  function Repeated(song: Option<Song>, n: nat): (r: seq<Option<Song>>)
    ensures |r| == n
    ensures forall i :: 0 <= i < n ==> r[i] == song
  {
    seq(n, i => song)
  }

  /**
   * However often the same song is emitted, the related page is requested at most once for
   * it, and only for that song's id; the first emission into a screen that never had an
   * answer always asks.
   */
  lemma {:induction false} SameSongAskedOnce(p: Persisted, song: Option<Song>, n: nat, relatedPage: string -> RelatedResult)
    requires song.Some?
    ensures var c := CollectAll(p, Repeated(song, n), relatedPage);
      && |c.requests| <= 1
      && (forall i :: 0 <= i < |c.requests| ==> c.requests[i] == song.value.id)
      && (n > 0 ==> c.persisted.trending == song)
      && (n > 0 && p.relatedPageResult.None? && p.trending.None? ==> c.requests == [song.value.id])
  {
    if n > 0 {
      var songs := Repeated(song, n);
      assert songs[..n - 1] == Repeated(song, n - 1);
      SameSongAskedOnce(p, song, n - 1, relatedPage);
      var before := CollectAll(p, Repeated(song, n - 1), relatedPage);
      if n > 1 {
        assert before.persisted.trending == song;
        assert !MustRefetch(before.persisted, song);
      }
    }
  }

  /** The screen's persisted variables, updated by each emission of the trending song. */
  class QuickPicksState {
    var trending: Option<Song>
    var relatedPageResult: RelatedResult

    constructor (persisted: Persisted)
      ensures Current() == persisted
    {
      trending := persisted.trending;
      relatedPageResult := persisted.relatedPageResult;
    }

    function Current(): Persisted
      reads this
    {
      Persisted(trending, relatedPageResult)
    }

    /** The body of the `collect` callback. */
    method OnTrending(song: Option<Song>, relatedPage: string -> RelatedResult) returns (request: Option<string>)
      modifies this
      ensures Emitted(Current(), request) == Collected(old(Current()), song, relatedPage)
    {
      request := None;
      if (song.None? && relatedPageResult.None?) || SongId(trending) != SongId(song) {
        request := Some(Seed(song));
        relatedPageResult := relatedPage(Seed(song));
      }
      trending := song;
    }

    /** `Database.trending().collect { … }` over the emitted songs, in order. */
    method Collect(songs: seq<Option<Song>>, relatedPage: string -> RelatedResult) returns (requests: seq<string>)
      modifies this
      ensures Collection(Current(), requests) == CollectAll(old(Current()), songs, relatedPage)
    {
      requests := [];
      for i := 0 to |songs|
        invariant Collection(Current(), requests) == CollectAll(old(Current()), songs[..i], relatedPage)
      {
        assert songs[..i + 1][..i] == songs[..i];
        var request := OnTrending(songs[i], relatedPage);
        if request.Some? {
          requests := requests + [request.value];
        }
      }
      assert songs[..|songs|] == songs;
    }
  }

  // ---------------------------------------------------------------------------------------
  // The quick-picks grid.

  /** An entry of the grid: the trending song from the library, or a related catalog song. */
  datatype QuickPick = TrendingPick(song: Song) | RelatedPick(item: SongItem)

  /** `dropLast(n)`: all but the last `n` elements, nothing when there are fewer. */
  function DropLast<T>(s: seq<T>, n: nat): (r: seq<T>)
    ensures |r| == (if |s| >= n then |s| - n else 0)
    ensures r == s[..|r|]
  {
    if |s| >= n then s[..|s| - n] else []
  }

  function RelatedPicks(items: seq<SongItem>): (r: seq<QuickPick>)
    ensures |r| == |items|
    ensures forall i :: 0 <= i < |r| ==> r[i] == RelatedPick(items[i])
  {
    seq(|items|, i requires 0 <= i < |items| => RelatedPick(items[i]))
  }

  /**
   * The grid: the trending song first, if any, then the related songs with the last one
   * dropped when the trending song took a place.
   */
  function QuickPicksList(trending: Option<Song>, related: RelatedPage): seq<QuickPick> {
    (if trending.Some? then [TrendingPick(trending.value)] else [])
      + RelatedPicks(if related.songs.Some? then DropLast(related.songs.value, if trending.Some? then 1 else 0) else [])
  }

  /**
   * The grid holds the trending song at the head, then the related songs in page order, each
   * at its own offset; when the page lists any song, the trending song replaces the last one
   * so the grid is as long as the page's list; with no songs listed only the trending song is
   * shown.
   */
  lemma QuickPicksListShape(trending: Option<Song>, related: RelatedPage)
    ensures var r := QuickPicksList(trending, related);
      var songs := if related.songs.Some? then related.songs.value else [];
      var off := if trending.Some? then 1 else 0;
      && (trending.Some? ==> r != [] && r[0] == TrendingPick(trending.value))
      && (forall i :: 0 <= i < |r| && r[i].TrendingPick? ==> i == 0 && trending.Some?)
      && |r| == off + (if |songs| >= off then |songs| - off else 0)
      && (forall i :: 0 <= i < |r| - off ==> r[off + i] == RelatedPick(songs[i]))
      && (|songs| > 0 ==> |r| == |songs|)
      && (songs == [] ==> r == (if trending.Some? then [TrendingPick(trending.value)] else []))
  {
  }

  // ---------------------------------------------------------------------------------------
  // What the screen shows, and a click.

  datatype Display = Sections(related: RelatedPage) | ErrorText | Placeholders

  /**
   * `relatedPageResult?.getOrNull()?.let { … } ?: relatedPageResult?.exceptionOrNull()?.let
   * { … } ?: ShimmerHost { … }`
   */
  function DisplayOf(result: RelatedResult): Display {
    if result.Some? && result.value.GetOrNull().Some? && result.value.GetOrNull().value.Some? then
      Sections(result.value.GetOrNull().value.value)
    else if result.Some? && result.value.ExceptionOrNull().Some? then ErrorText
    else Placeholders
  }

  /**
   * The sections show exactly when the request succeeded with a page, and show that page; the
   * error text exactly when it failed; the placeholders when nothing answered yet, and also
   * when the request succeeded with no page.
   */
  lemma DisplayCases(result: RelatedResult)
    ensures DisplayOf(result).Sections? <==> result.Some? && result.value.Success? && result.value.value.Some?
    ensures DisplayOf(result).Sections? ==> DisplayOf(result).related == result.value.value.value
    ensures DisplayOf(result).ErrorText? <==> result.Some? && result.value.Failure?
    ensures DisplayOf(result).Placeholders? <==> result.None? || result.value == Success(None)
  {
  }

  /** `song.asMediaItem.mediaId` for a pick. */
  function PickId(pick: QuickPick): string {
    match pick
    case TrendingPick(song) => song.id
    case RelatedPick(item) => item.key
  }

  /**
   * A click on a pick: the radio stops, the pick plays, and a radio seeded by the same video
   * starts.
   */
  function PickClick(bound: bool, pick: QuickPick): (r: seq<PlayerCall>)
    ensures !bound ==> r == []
    ensures bound ==> |r| == 3 && r[0] == StopRadio && r[1].ForcePlay? && r[2].SetupWatchRadio?
    ensures bound ==> r[1].mediaId == r[2].videoId == PickId(pick)
  {
    IfBound(bound, [StopRadio, ForcePlay(PickId(pick)), SetupWatchRadio(PickId(pick))])
  }
}
