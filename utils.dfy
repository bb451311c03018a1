/**
 * app/vitune/android/utils/Utils.kt: the thumbnail URL rewrite, the continuation flattener
 * `Result<PlaylistOrAlbumPage>.completed` and the `Flow.onFirst` operator.
 */
module Utils {
  import opened Wrappers
  import opened Innertube

  // ---------------------------------------------------------------------------------------
  // Decimal rendering of Kotlin `Int`s (string templates) and its inverse.

  function DigitChar(d: nat): (c: char)
    requires d < 10
    ensures '0' <= c <= '9'
  {
    (('0' as int) + d) as char
  }

  function DigitValue(c: char): nat
    requires '0' <= c <= '9'
  {
    (c as int) - ('0' as int)
  }

  predicate IsDigits(s: string) {
    |s| > 0 && forall i :: 0 <= i < |s| ==> '0' <= s[i] <= '9'
  }

  /** The decimal digits of `n`, most significant first, without leading zeros. */
  function NatString(n: nat): (s: string)
    ensures IsDigits(s)
    ensures n > 0 ==> s[0] != '0'
    decreases n
  {
    if n < 10 then [DigitChar(n)] else NatString(n / 10) + [DigitChar(n % 10)]
  }

  /** `"$n"` for a Kotlin `Int`: a minus sign before the digits of a negative number. */
  function IntString(n: int): string
  {
    if n < 0 then "-" + NatString(-n) else NatString(n)
  }

  function ParseNat(s: string): nat
    requires IsDigits(s)
    decreases |s|
  {
    if |s| == 1 then DigitValue(s[0])
    else ParseNat(s[..|s| - 1]) * 10 + DigitValue(s[|s| - 1])
  }

  function ParseInt(s: string): int
    requires |s| > 0
    requires s[0] == '-' ==> IsDigits(s[1..])
    requires s[0] != '-' ==> IsDigits(s)
  {
    if s[0] == '-' then 0 - ParseNat(s[1..]) else ParseNat(s)
  }

  lemma {:induction false} ParseNatString(n: nat)
    ensures ParseNat(NatString(n)) == n
    decreases n
  {
    if n >= 10 {
      var s := NatString(n);
      ParseNatString(n / 10);
      assert s[..|s| - 1] == NatString(n / 10);
    }
  }

  /** Reading back the rendered number gives the number: the rendering loses nothing. */
  lemma ParseIntString(n: int)
    ensures var s := IntString(n);
      |s| > 0 && (s[0] == '-' ==> IsDigits(s[1..])) && (s[0] != '-' ==> IsDigits(s))
      && ParseInt(s) == n
  {
    var s := IntString(n);
    if n < 0 {
      assert s[1..] == NatString(-n);
      ParseNatString(-n);
    } else {
      ParseNatString(n);
    }
  }

  lemma IntStringInjective(a: int, b: int)
    requires IntString(a) == IntString(b)
    ensures a == b
  {
    ParseIntString(a);
    ParseIntString(b);
  }

  // ---------------------------------------------------------------------------------------
  // `String?.thumbnail(size, maxSize)`

  const GoogleUserContent: string := "https://lh3.googleusercontent.com"
  const Ggpht: string := "https://yt3.ggpht.com"

  predicate StartsWith(s: string, prefix: string) {
    |prefix| <= |s| && s[..|prefix|] == prefix
  }

  /** `size.coerceAtMost(maxSize)` */
  function CoerceAtMost(size: int, maxSize: int): (n: int)
    ensures n <= size && n <= maxSize && (n == size || n == maxSize)
  {
    if size > maxSize then maxSize else size
  }

  /** The size parameters `thumbnail` appends to a URL of `host`, or `None` for other URLs. */
  function SizeSuffix(url: string, n: int): Option<string>
  {
    var s := IntString(n);
    if StartsWith(url, GoogleUserContent) then Some("-w" + s + "-h" + s)
    else if StartsWith(url, Ggpht) then Some("-w" + s + "-h" + s + "-s" + s)
    else None
  }

  /**
   * Rewrites an image URL of the two image hosts to request a `size` (at most `maxSize`)
   * rendition; every other URL, and `null`, is returned as it is.
   */
  function Thumbnail(url: Option<string>, size: int, maxSize: int): (r: Option<string>)
    ensures r.Some? <==> url.Some?
    ensures url.Some? ==> StartsWith(r.value, url.value)
    ensures url.Some? && !StartsWith(url.value, GoogleUserContent) && !StartsWith(url.value, Ggpht)
      ==> r == url
  {
    match url
    case None => None
    case Some(u) =>
      match SizeSuffix(u, CoerceAtMost(size, maxSize))
      case Some(suffix) => Some(u + suffix)
      case None => Some(u)
  }

  /** No URL is on both image hosts. */
  lemma HostsExclusive(u: string)
    ensures !(StartsWith(u, GoogleUserContent) && StartsWith(u, Ggpht))
  {
    assert StartsWith(u, GoogleUserContent) ==> u[8] == u[..|GoogleUserContent|][8] == 'l';
    assert StartsWith(u, Ggpht) ==> u[8] == u[..|Ggpht|][8] == 'y';
  }

  /**
   * On an lh3.googleusercontent URL the appended text is `-w<n>-h<n>`, and on a yt3.ggpht URL
   * `-w<n>-h<n>-s<n>`, where `<n>` renders `min(size, maxSize)` and reads back as it.
   */
  lemma ThumbnailSuffix(u: string, size: int, maxSize: int)
    ensures var n := CoerceAtMost(size, maxSize); var s := IntString(n);
      && (StartsWith(u, GoogleUserContent) ==> Thumbnail(Some(u), size, maxSize) == Some(u + ("-w" + s + "-h" + s)))
      && (StartsWith(u, Ggpht) ==> Thumbnail(Some(u), size, maxSize) == Some(u + ("-w" + s + "-h" + s + "-s" + s)))
      && ParseInt(s) == n
  {
    ParseIntString(CoerceAtMost(size, maxSize));
    HostsExclusive(u);
  }

  /** The number repeated in a size suffix is determined by the suffix. */
  lemma SuffixDeterminesSize(u: string, s1: string, s2: string, ggpht: bool)
    requires ggpht ==> u + ("-w" + s1 + "-h" + s1 + "-s" + s1) == u + ("-w" + s2 + "-h" + s2 + "-s" + s2)
    requires !ggpht ==> u + ("-w" + s1 + "-h" + s1) == u + ("-w" + s2 + "-h" + s2)
    ensures s1 == s2
  {
    var r := if ggpht then u + ("-w" + s1 + "-h" + s1 + "-s" + s1) else u + ("-w" + s1 + "-h" + s1);
    // Same length, so the two numbers have the same length; they both start at |u| + 2.
    assert |s1| == |s2|;
    var k := |u| + 2;
    assert r[k..k + |s1|] == s1;
    assert r[k..k + |s2|] == s2;
  }

  /** Distinct effective sizes give distinct URLs on both image hosts. */
  lemma ThumbnailSizesDistinguished(u: string, size1: int, size2: int, maxSize: int)
    requires StartsWith(u, GoogleUserContent) || StartsWith(u, Ggpht)
    requires Thumbnail(Some(u), size1, maxSize) == Thumbnail(Some(u), size2, maxSize)
    ensures CoerceAtMost(size1, maxSize) == CoerceAtMost(size2, maxSize)
  {
    var n1, n2 := CoerceAtMost(size1, maxSize), CoerceAtMost(size2, maxSize);
    ThumbnailSuffix(u, size1, maxSize);
    ThumbnailSuffix(u, size2, maxSize);
    SuffixDeterminesSize(u, IntString(n1), IntString(n2), !StartsWith(u, GoogleUserContent));
    IntStringInjective(n1, n2);
  }

  // ---------------------------------------------------------------------------------------
  // `Result<PlaylistOrAlbumPage>.completed(maxDepth, shouldDedup)`

  /** `items.any { it in songs }` */
  predicate AnyAlreadyPresent<T(==)>(items: seq<T>, songs: seq<T>) {
    exists i :: 0 <= i < |items| && items[i] in songs
  }

  /**
   * The response to a continuation request can be used: it arrived (neither `null` nor a
   * failure) and has at least one item (`takeUnless { it.items.isNullOrEmpty() }`).
   */
  predicate Usable<T>(response: Option<ItemsPage<T>>) {
    response.Some? && response.value.items.Some? && response.value.items.value != []
  }

  /** The loop ends at `response` without appending it. */
  predicate StopsAt<T(==)>(response: Option<ItemsPage<T>>, songs: seq<T>, shouldDedup: bool) {
    !Usable(response) || (shouldDedup && AnyAlreadyPresent(response.value.items.value, songs))
  }

  /** The continuation a response hands back, `null` for a missing response. */
  function NextCursor<T>(response: Option<ItemsPage<T>>): Option<Cursor> {
    if response.Some? then response.value.continuation else None
  }

  /** The items of each response to `cursors`, concatenated in request order. */
  function ItemsOf<T>(fetch: Cursor -> Option<ItemsPage<T>>, cursors: seq<Cursor>): seq<T>
  {
    if cursors == [] then []
    else
      var first := fetch(cursors[0]);
      (if first.Some? && first.value.items.Some? then first.value.items.value else [])
        + ItemsOf(fetch, cursors[1..])
  }

  /**
   * What the loop of `completed` did from some point on: the accumulated songs, the cursors
   * it requested, in order, and how many of the responses it appended.
   */
  datatype Walk<T> = Walk(songs: seq<T>, requests: seq<Cursor>, accepted: nat)

  /**
   * The loop of `completed` from the state (`songs`, `continuation`), with `budget` =
   * `maxDepth - depth` requests left.
   */
  function WalkFrom<T(==)>(
    fetch: Cursor -> Option<ItemsPage<T>>, songs: seq<T>, continuation: Option<Cursor>,
    budget: int, shouldDedup: bool): Walk<T>
    decreases if budget < 0 then 0 else budget
  {
    if continuation.None? || budget <= 0 then Walk(songs, [], 0)
    else
      var c := continuation.value;
      var response := fetch(c);
      if StopsAt(response, songs, shouldDedup) then Walk(songs, [c], 0)
      else
        var rest := WalkFrom(fetch, songs + response.value.items.value,
                             response.value.continuation, budget - 1, shouldDedup);
        Walk(rest.songs, [c] + rest.requests, rest.accepted + 1)
  }

  /** At most `budget` requests are made, none when `budget <= 0`; at most the last is rejected. */
  lemma {:induction false} WalkRequestBound<T>(
    fetch: Cursor -> Option<ItemsPage<T>>, songs: seq<T>, continuation: Option<Cursor>,
    budget: int, shouldDedup: bool)
    ensures var w := WalkFrom(fetch, songs, continuation, budget, shouldDedup);
      && |w.requests| <= (if budget < 0 then 0 else budget)
      && w.accepted <= |w.requests| <= w.accepted + 1
      && (continuation.None? ==> w.requests == [])
    decreases if budget < 0 then 0 else budget
  {
    if continuation.Some? && budget > 0 {
      var response := fetch(continuation.value);
      if !StopsAt(response, songs, shouldDedup) {
        WalkRequestBound(fetch, songs + response.value.items.value,
                         response.value.continuation, budget - 1, shouldDedup);
      }
    }
  }

  /** The songs a usable response contributes come first. */
  lemma ItemsOfCons<T>(fetch: Cursor -> Option<ItemsPage<T>>, c: Cursor, cursors: seq<Cursor>)
    requires Usable(fetch(c))
    ensures ItemsOf(fetch, [c] + cursors) == fetch(c).value.items.value + ItemsOf(fetch, cursors)
  {
    assert ([c] + cursors)[1..] == cursors;
  }

  /**
   * The accumulated songs are the starting songs followed by the items of every accepted
   * response, in request order; the accepted responses are the first `accepted` requests.
   */
  lemma {:induction false} WalkSongs<T>(
    fetch: Cursor -> Option<ItemsPage<T>>, songs: seq<T>, continuation: Option<Cursor>,
    budget: int, shouldDedup: bool)
    ensures var w := WalkFrom(fetch, songs, continuation, budget, shouldDedup);
      w.accepted <= |w.requests| && w.songs == songs + ItemsOf(fetch, w.requests[..w.accepted])
    decreases if budget < 0 then 0 else budget
  {
    var w := WalkFrom(fetch, songs, continuation, budget, shouldDedup);
    WalkRequestBound(fetch, songs, continuation, budget, shouldDedup);
    if continuation.Some? && budget > 0 && !StopsAt(fetch(continuation.value), songs, shouldDedup) {
      var c := continuation.value;
      var items := fetch(c).value.items.value;
      var rest := WalkFrom(fetch, songs + items, fetch(c).value.continuation, budget - 1, shouldDedup);
      WalkSongs(fetch, songs + items, fetch(c).value.continuation, budget - 1, shouldDedup);
      assert w.requests[..w.accepted] == [c] + rest.requests[..rest.accepted];
      ItemsOfCons(fetch, c, rest.requests[..rest.accepted]);
      assert w.songs == (songs + items) + ItemsOf(fetch, rest.requests[..rest.accepted]);
    } else {
      assert w.requests[..w.accepted] == [];
    }
  }

  /** Each request asks for the continuation the previous response handed back. */
  ghost predicate Linked<T>(fetch: Cursor -> Option<ItemsPage<T>>, requests: seq<Cursor>) {
    forall i :: 0 <= i < |requests| - 1 ==> NextCursor(fetch(requests[i])) == Some(requests[i + 1])
  }

  /**
   * The first `accepted` requests were answered by usable responses that (with
   * `shouldDedup`) repeated none of the songs gathered before them.
   */
  ghost predicate AllAccepted<T>(
    fetch: Cursor -> Option<ItemsPage<T>>, songs: seq<T>, requests: seq<Cursor>, accepted: nat, shouldDedup: bool)
    requires accepted <= |requests|
  {
    forall i :: 0 <= i < accepted ==>
      !StopsAt(fetch(requests[i]), songs + ItemsOf(fetch, requests[..i]), shouldDedup)
  }

  lemma LinkedCons<T>(fetch: Cursor -> Option<ItemsPage<T>>, c: Cursor, rest: seq<Cursor>)
    requires Linked(fetch, rest)
    requires rest != [] ==> NextCursor(fetch(c)) == Some(rest[0])
    ensures Linked(fetch, [c] + rest)
  {
    var r := [c] + rest;
    forall i | 0 <= i < |r| - 1 ensures NextCursor(fetch(r[i])) == Some(r[i + 1]) {
      if i > 0 {
        assert r[i] == rest[i - 1] && r[i + 1] == rest[i];
      }
    }
  }

  lemma AllAcceptedCons<T>(
    fetch: Cursor -> Option<ItemsPage<T>>, songs: seq<T>, c: Cursor, rest: seq<Cursor>, accepted: nat, shouldDedup: bool)
    requires accepted <= |rest|
    requires !StopsAt(fetch(c), songs, shouldDedup)
    requires AllAccepted(fetch, songs + fetch(c).value.items.value, rest, accepted, shouldDedup)
    ensures AllAccepted(fetch, songs, [c] + rest, accepted + 1, shouldDedup)
  {
    var r := [c] + rest;
    var items := fetch(c).value.items.value;
    forall i | 0 <= i < accepted + 1
      ensures !StopsAt(fetch(r[i]), songs + ItemsOf(fetch, r[..i]), shouldDedup)
    {
      if i == 0 {
        assert r[..0] == [];
      } else {
        assert r[..i] == [c] + rest[..i - 1];
        ItemsOfCons(fetch, c, rest[..i - 1]);
        assert songs + ItemsOf(fetch, r[..i]) == (songs + items) + ItemsOf(fetch, rest[..i - 1]);
        assert r[i] == rest[i - 1];
      }
    }
  }

  /**
   * The requests follow the cursor chain from `continuation`, and every accepted response was
   * usable and, with `shouldDedup`, brought no song that had already been gathered.
   */
  lemma {:induction false} WalkChain<T>(
    fetch: Cursor -> Option<ItemsPage<T>>, songs: seq<T>, continuation: Option<Cursor>,
    budget: int, shouldDedup: bool)
    ensures var w := WalkFrom(fetch, songs, continuation, budget, shouldDedup);
      && w.accepted <= |w.requests|
      && (|w.requests| > 0 ==> continuation == Some(w.requests[0]))
      && Linked(fetch, w.requests)
      && AllAccepted(fetch, songs, w.requests, w.accepted, shouldDedup)
    decreases if budget < 0 then 0 else budget
  {
    var w := WalkFrom(fetch, songs, continuation, budget, shouldDedup);
    WalkRequestBound(fetch, songs, continuation, budget, shouldDedup);
    if continuation.Some? && budget > 0 && !StopsAt(fetch(continuation.value), songs, shouldDedup) {
      var c := continuation.value;
      var items := fetch(c).value.items.value;
      var rest := WalkFrom(fetch, songs + items, fetch(c).value.continuation, budget - 1, shouldDedup);
      WalkChain(fetch, songs + items, fetch(c).value.continuation, budget - 1, shouldDedup);
      LinkedCons(fetch, c, rest.requests);
      AllAcceptedCons(fetch, songs, c, rest.requests, rest.accepted, shouldDedup);
    }
  }

  /**
   * Why the loop ended: the last request was rejected (failed, `null`, no items, or a
   * repeated song under `shouldDedup`), or the cursor chain ran out, or the budget did.
   */
  lemma {:induction false} WalkStop<T>(
    fetch: Cursor -> Option<ItemsPage<T>>, songs: seq<T>, continuation: Option<Cursor>,
    budget: int, shouldDedup: bool)
    ensures var w := WalkFrom(fetch, songs, continuation, budget, shouldDedup);
      && w.accepted <= |w.requests|
      && (|w.requests| == w.accepted + 1 ==>
            StopsAt(fetch(w.requests[w.accepted]), songs + ItemsOf(fetch, w.requests[..w.accepted]), shouldDedup))
      && (|w.requests| == w.accepted ==>
            w.accepted >= budget
            || (w.accepted == 0 && continuation.None?)
            || (w.accepted > 0 && NextCursor(fetch(w.requests[w.accepted - 1])).None?))
    decreases if budget < 0 then 0 else budget
  {
    var w := WalkFrom(fetch, songs, continuation, budget, shouldDedup);
    WalkRequestBound(fetch, songs, continuation, budget, shouldDedup);
    if continuation.Some? && budget > 0 {
      var c := continuation.value;
      if StopsAt(fetch(c), songs, shouldDedup) {
        assert w.requests[..0] == [];
      } else {
        var items := fetch(c).value.items.value;
        var rest := WalkFrom(fetch, songs + items, fetch(c).value.continuation, budget - 1, shouldDedup);
        WalkStop(fetch, songs + items, fetch(c).value.continuation, budget - 1, shouldDedup);
        assert w.requests == [c] + rest.requests;
        if |w.requests| == w.accepted + 1 {
          assert w.requests[..w.accepted] == [c] + rest.requests[..rest.accepted];
          ItemsOfCons(fetch, c, rest.requests[..rest.accepted]);
          assert songs + ItemsOf(fetch, w.requests[..w.accepted])
              == (songs + items) + ItemsOf(fetch, rest.requests[..rest.accepted]);
          assert w.requests[w.accepted] == rest.requests[rest.accepted];
        } else if |w.requests| == w.accepted && rest.accepted == 0 && rest.accepted < budget - 1 {
          assert w.requests[w.accepted - 1] == c;
        } else if |w.requests| == w.accepted && rest.accepted > 0 {
          assert w.requests[w.accepted - 1] == rest.requests[rest.accepted - 1];
        }
      }
    }
  }

  /** `Int.MAX_VALUE`, the default `maxDepth`: in effect no bound on the requests. */
  const DefaultMaxDepth: int := 0x7fff_ffff

  /** The flattened page and the cursors `completed` requested, in order. */
  datatype Completion = Completion(result: Result<PlaylistOrAlbumPage, Error>, requests: seq<Cursor>)

  /** The continuation of a page's songs, `songsPage?.continuation`. */
  function SongsContinuation(page: PlaylistOrAlbumPage): Option<Cursor> {
    if page.songsPage.Some? then page.songsPage.value.continuation else None
  }

  /**
   * What `completed` computes, given the answers `fetch` of the catalog service to
   * continuation requests (`None` for a `null` response or a failure).
   */
  function CompletedSpec(
    initial: Result<PlaylistOrAlbumPage, Error>, fetch: Cursor -> Option<ItemsPage<SongItem>>,
    maxDepth: int, shouldDedup: bool): Completion
  {
    match initial
    case Failure(e) => Completion(Failure(e), [])
    case Success(page) =>
      var w := WalkFrom(fetch, ItemsOrEmpty(page.songsPage), SongsContinuation(page), maxDepth, shouldDedup);
      Completion(Success(page.(songsPage := Some(ItemsPage(Some(w.songs), None)))), w.requests)
  }

  /** A failed page stays a failure with the same error, and nothing is requested. */
  lemma CompletedFailure(
    initial: Result<PlaylistOrAlbumPage, Error>, fetch: Cursor -> Option<ItemsPage<SongItem>>,
    maxDepth: int, shouldDedup: bool)
    requires initial.Failure?
    ensures CompletedSpec(initial, fetch, maxDepth, shouldDedup) == Completion(Failure(initial.error), [])
  {
  }

  /**
   * A page comes back as a success whose songs page has no continuation, even when `maxDepth`
   * ended the loop, and whose other fields are the original page's; at most `maxDepth`
   * requests are made, none when `maxDepth <= 0` or the page has no continuation.
   */
  lemma CompletedFlattens(
    initial: Result<PlaylistOrAlbumPage, Error>, fetch: Cursor -> Option<ItemsPage<SongItem>>,
    maxDepth: int, shouldDedup: bool)
    requires initial.Success?
    ensures var c := CompletedSpec(initial, fetch, maxDepth, shouldDedup); var page := initial.value;
      && c.result.Success?
      && c.result.value.songsPage.Some?
      && c.result.value.songsPage.value.continuation.None?
      && c.result.value.songsPage.value.items.Some?
      && c.result.value == page.(songsPage := c.result.value.songsPage)
      && |c.requests| <= (if maxDepth < 0 then 0 else maxDepth)
      && (SongsContinuation(page).None? ==> c.requests == [])
  {
    var page := initial.value;
    WalkRequestBound(fetch, ItemsOrEmpty(page.songsPage), SongsContinuation(page), maxDepth, shouldDedup);
  }

  /**
   * The resulting songs are the original page's songs (none if absent) followed by the items
   * of each accepted response in request order; the requests follow the cursor chain from
   * the page's continuation; with `shouldDedup` no accepted response repeated a song, and
   * without it a response is only rejected when it failed or had no items.
   */
  lemma CompletedSongs(
    initial: Result<PlaylistOrAlbumPage, Error>, fetch: Cursor -> Option<ItemsPage<SongItem>>,
    maxDepth: int, shouldDedup: bool)
    requires initial.Success?
    ensures var c := CompletedSpec(initial, fetch, maxDepth, shouldDedup); var page := initial.value;
      var start := ItemsOrEmpty(page.songsPage);
      var accepted := WalkFrom(fetch, start, SongsContinuation(page), maxDepth, shouldDedup).accepted;
      && accepted <= |c.requests| <= accepted + 1
      && c.result.value.songsPage.value.items == Some(start + ItemsOf(fetch, c.requests[..accepted]))
      && (|c.requests| > 0 ==> SongsContinuation(page) == Some(c.requests[0]))
      && Linked(fetch, c.requests)
      && AllAccepted(fetch, start, c.requests, accepted, shouldDedup)
      && (|c.requests| == accepted + 1 ==>
            StopsAt(fetch(c.requests[accepted]), start + ItemsOf(fetch, c.requests[..accepted]), shouldDedup))
  {
    var page := initial.value;
    var start := ItemsOrEmpty(page.songsPage);
    WalkSongs(fetch, start, SongsContinuation(page), maxDepth, shouldDedup);
    WalkChain(fetch, start, SongsContinuation(page), maxDepth, shouldDedup);
    WalkStop(fetch, start, SongsContinuation(page), maxDepth, shouldDedup);
    WalkRequestBound(fetch, start, SongsContinuation(page), maxDepth, shouldDedup);
  }

  /** Continuation answers for the scenario of `CompletedScenario`. */
  function ScenarioFetch(a: SongItem, b: SongItem, c: SongItem): Cursor -> Option<ItemsPage<SongItem>>
  {
    (cursor: Cursor) =>
      if cursor == "c1" then Some(ItemsPage(Some([a, b]), Some("c2")))
      else if cursor == "c2" then Some(ItemsPage(Some([b, c]), None))
      else None
  }

  /**
   * A page with no songs and cursor "c1", answered by `[a, b]` with cursor "c2" and then by
   * `[b, c]` with no cursor: without dedup the duplicate `b` is kept, and with dedup the
   * second response is dropped because it repeats `b`.
   */
  lemma CompletedScenario(a: SongItem, b: SongItem, c: SongItem, page: PlaylistOrAlbumPage)
    requires page.songsPage == Some(ItemsPage(Some([]), Some("c1")))
    ensures CompletedSpec(Success(page), ScenarioFetch(a, b, c), 5, false)
      == Completion(Success(page.(songsPage := Some(ItemsPage(Some([a, b, b, c]), None)))), ["c1", "c2"])
    ensures CompletedSpec(Success(page), ScenarioFetch(a, b, c), 5, true)
      == Completion(Success(page.(songsPage := Some(ItemsPage(Some([a, b]), None)))), ["c1", "c2"])
  {
    var fetch := ScenarioFetch(a, b, c);
    assert fetch("c1") == Some(ItemsPage(Some([a, b]), Some("c2")));
    assert fetch("c2") == Some(ItemsPage(Some([b, c]), None));
    assert !AnyAlreadyPresent([a, b], []);
    assert [] + [a, b] == [a, b];
    assert [a, b] + [b, c] == [a, b, b, c];
    assert WalkFrom(fetch, [a, b, b, c], None, 3, false) == Walk([a, b, b, c], [], 0);
    assert WalkFrom(fetch, [a, b], Some("c2"), 4, false) == Walk([a, b, b, c], ["c2"], 1);
    assert WalkFrom(fetch, [], Some("c1"), 5, false) == Walk([a, b, b, c], ["c1", "c2"], 2);
    assert AnyAlreadyPresent([b, c], [a, b]) by { assert [b, c][0] in [a, b]; }
    assert WalkFrom(fetch, [a, b], Some("c2"), 4, true) == Walk([a, b], ["c2"], 0);
    assert WalkFrom(fetch, [], Some("c1"), 5, true) == Walk([a, b], ["c1", "c2"], 1);
  }

  /**
   * `completed`: follows the continuation of the page's songs with at most `maxDepth`
   * requests and returns the page with every song it gathered and no continuation.
   */
  method Completed(
    initial: Result<PlaylistOrAlbumPage, Error>, fetch: Cursor -> Option<ItemsPage<SongItem>>,
    maxDepth: int, shouldDedup: bool)
    returns (result: Result<PlaylistOrAlbumPage, Error>, requests: seq<Cursor>)
    ensures Completion(result, requests) == CompletedSpec(initial, fetch, maxDepth, shouldDedup)
  {
    if initial.Failure? {
      return Failure(initial.error), [];
    }
    var page := initial.value;
    var songs := ItemsOrEmpty(page.songsPage);
    var continuation := SongsContinuation(page);
    ghost var whole := WalkFrom(fetch, songs, continuation, maxDepth, shouldDedup);
    var depth := 0;
    requests := [];
    while continuation.Some?
      invariant var w := WalkFrom(fetch, songs, continuation, maxDepth - depth, shouldDedup);
        w.songs == whole.songs && requests + w.requests == whole.requests
      decreases maxDepth - depth
    {
      // `depth++ < maxDepth`: the comparison sees the value before the increment.
      var previousDepth := depth;
      depth := depth + 1;
      if !(previousDepth < maxDepth) {
        break;
      }
      var c := continuation.value;
      var response := fetch(c);
      requests := requests + [c];
      if !Usable(response) {
        break;
      }
      var newSongs := response.value;
      if shouldDedup && AnyAlreadyPresent(newSongs.items.value, songs) {
        break;
      }
      songs := songs + newSongs.items.value;
      continuation := newSongs.continuation;
    }
    result := Success(page.(songsPage := Some(ItemsPage(Some(songs), None))));
  }

  // ---------------------------------------------------------------------------------------
  // `Flow<T>.onFirst(block)`

  /**
   * The flow `onFirst` returns. Its `isFirst` flag is created once per returned flow, not
   * per collection, so only the first element of the first non-empty collection reaches
   * `block`.
   */
  class OnFirstFlow<T> {
    var isFirst: bool

    constructor ()
      ensures isFirst
    {
      isFirst := true;
    }

    /**
     * Collects the flow over the upstream elements `upstream`: returns the elements passed
     * downstream and the arguments `block` was called with, in order.
     */
    method Collect(upstream: seq<T>) returns (emitted: seq<T>, blockArgs: seq<T>)
      modifies this
      ensures emitted == upstream
      ensures blockArgs == if old(isFirst) && upstream != [] then [upstream[0]] else []
      ensures isFirst == (old(isFirst) && upstream == [])
    {
      emitted, blockArgs := [], [];
      var i := 0;
      while i < |upstream|
        invariant 0 <= i <= |upstream|
        invariant emitted == upstream[..i]
        invariant isFirst == (old(isFirst) && i == 0)
        invariant blockArgs == if old(isFirst) && i > 0 then [upstream[0]] else []
      {
        var x := upstream[i];
        if isFirst {
          blockArgs := blockArgs + [x];
          isFirst := false;
        }
        emitted := emitted + [x];
        i := i + 1;
      }
    }
  }
}
