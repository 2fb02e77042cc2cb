/**
 * The two catalog views that list songs: `search` (a query typed by the
 * listener, asked of the catalog with a limit of 10) and `index` (the home page: 50 popular songs,
 * shuffled, the first 10 shown). Both reshape the catalog's raw items the
 * same way. The catalog client is a parameter: `None` when it could not be
 * initialised at start-up, otherwise an oracle from (query, filter, limit)
 * to the items it returned or the message of the exception it raised.
 */
module Search {
  import opened Wrappers
  import opened Common

  const UNKNOWN := "Unknown"
  const NOT_INITIALIZED_MESSAGE := "YTMusic not initialized"
  const SUGGESTIONS_ERROR_PREFIX := "Could not load suggestions: "
  const SONGS_FILTER := "songs"
  const SEARCH_LIMIT := 10
  const POPULAR_QUERY := "popular music"
  const POPULAR_LIMIT := 50
  const SUGGESTION_COUNT := 10

  datatype Artist = Artist(name: string)
  datatype Thumbnail = Thumbnail(url: string)

  /** One item as the catalog returns it; the optional keys may be missing. */
  datatype RawItem = RawItem(
    title: string,
    videoId: string,
    artists: Option<seq<Artist>>,
    duration: Option<string>,
    thumbnails: Option<seq<Thumbnail>>)

  /** One song as the views hand it to the page or to the player. */
  datatype Song = Song(title: string, artist: string, videoId: string, duration: string, thumbnail: Option<string>)

  /** A request made to the catalog client. */
  datatype Query = Query(query: string, filter: string, limit: int)

  type Catalog = (string, string, int) -> Reply<seq<RawItem>>

  /** The JSON answer of the search view. */
  datatype SearchResponse = Results(results: seq<Song>) | Error(status: int, error: string)

  /** What the home page is rendered with: suggestions, or an error line. */
  datatype IndexPage = Suggestions(songs: seq<Song>) | PageError(error: string)

  datatype SearchRun = SearchRun(response: SearchResponse, queries: seq<Query>)
  datatype IndexRun = IndexRun(page: IndexPage, queries: seq<Query>)

  // ---------------------------------------------------------------------------
  // Reshaping catalog items.
  // ---------------------------------------------------------------------------

  /** The first artist's name when the list is present and not empty, else "Unknown". */
  function ArtistName(artists: Option<seq<Artist>>): string {
    if artists.Some? && artists.value != [] then artists.value[0].name else UNKNOWN
  }

  /** The last thumbnail's URL when the list is present and not empty, else nothing. */
  function LastThumbnail(thumbnails: Option<seq<Thumbnail>>): Option<string> {
    if thumbnails.Some? && thumbnails.value != [] then Some(thumbnails.value[|thumbnails.value| - 1].url) else None
  }

  function Shape(item: RawItem): Song {
    Song(item.title, ArtistName(item.artists), item.videoId, item.duration.GetOr(UNKNOWN), LastThumbnail(item.thumbnails))
  }

  /** Each item reshaped, in the catalog's order. */
  function ShapeAll(items: seq<RawItem>): seq<Song> {
    if items == [] then [] else [Shape(items[0])] + ShapeAll(items[1..])
  }

  /** The reshaped list has one song per item, at the same position, built from that item. */
  lemma {:induction false} ShapeAllAt(items: seq<RawItem>)
    ensures |ShapeAll(items)| == |items|
    ensures forall i :: 0 <= i < |items| ==> ShapeAll(items)[i] == Shape(items[i])
  {
    if items != [] {
      ShapeAllAt(items[1..]);
      forall i | 0 <= i < |items| ensures ShapeAll(items)[i] == Shape(items[i]) {
        if i > 0 {
          assert ShapeAll(items)[i] == ShapeAll(items[1..])[i - 1];
          assert items[1..][i - 1] == items[i];
        }
      }
    }
  }

  /** What the views promise of the song they make from `item`, field by field. */
  ghost predicate SongOf(song: Song, item: RawItem) {
    song.title == item.title && song.videoId == item.videoId &&
    (item.duration.Some? ==> song.duration == item.duration.value) &&
    (item.duration.None? ==> song.duration == UNKNOWN) &&
    (item.artists.Some? && |item.artists.value| > 0 ==> song.artist == item.artists.value[0].name) &&
    (item.artists.None? || item.artists.value == [] ==> song.artist == UNKNOWN) &&
    (item.thumbnails.Some? && |item.thumbnails.value| > 0 ==> song.thumbnail == Some(item.thumbnails.value[|item.thumbnails.value| - 1].url)) &&
    (item.thumbnails.None? || item.thumbnails.value == [] ==> song.thumbnail == None)
  }

  lemma ShapeMeetsSongOf(item: RawItem)
    ensures SongOf(Shape(item), item)
  {
  }

  /** Reshaping keeps an item's title and video ID and fills each missing optional key with its default. */
  lemma ShapeKeepsIdentity(item: RawItem)
    ensures Shape(item).title == item.title && Shape(item).videoId == item.videoId
    ensures item.duration == None ==> Shape(item).duration == UNKNOWN
    ensures item.duration.Some? ==> Shape(item).duration == item.duration.value
    ensures Shape(item).artist == UNKNOWN <==> item.artists == None || item.artists == Some([]) || item.artists.value[0].name == UNKNOWN
    ensures Shape(item).thumbnail == None <==> item.thumbnails == None || item.thumbnails == Some([])
  {
  }

  /** Reshaping commutes with concatenation: the list is reshaped item by item. */
  lemma {:induction false} ShapeAllAppend(a: seq<RawItem>, b: seq<RawItem>)
    ensures ShapeAll(a + b) == ShapeAll(a) + ShapeAll(b)
  {
    if a == [] {
      assert a + b == b;
    } else {
      assert (a + b)[1..] == a[1..] + b;
      ShapeAllAppend(a[1..], b);
    }
  }

  // ---------------------------------------------------------------------------
  // The search view.
  // ---------------------------------------------------------------------------

  /** The search view: an absent or empty query answers with no results and
    * no catalog request; otherwise, when a client exists, one request with a limit
    * of 10, and every item the client returns is reshaped. */
  function RunSearch(q: Option<string>, client: Option<Catalog>): SearchRun {
    if !Truthy(q) then SearchRun(Results([]), [])
    else if client == None then SearchRun(Error(STATUS_SERVER_ERROR, NOT_INITIALIZED_MESSAGE), [])
    else
      var request := Query(q.value, SONGS_FILTER, SEARCH_LIMIT);
      match client.value(q.value, SONGS_FILTER, SEARCH_LIMIT)
      case Raised(message) => SearchRun(Error(STATUS_SERVER_ERROR, message), [request])
      case Returned(items) => SearchRun(Results(ShapeAll(items)), [request])
  }

  /** An empty query never reaches the catalog; any other query reaches it exactly once, with the songs filter and a limit of 10. */
  lemma SearchQueries(q: Option<string>, client: Option<Catalog>)
    ensures !Truthy(q) ==> RunSearch(q, client) == SearchRun(Results([]), [])
    ensures Truthy(q) && client.Some? ==> RunSearch(q, client).queries == [Query(q.value, "songs", 10)]
    ensures client == None ==> RunSearch(q, client).queries == []
  {
  }

  /** The search view answers with exactly the catalog's items, one song per item in order, each with the
    * item's title, video ID and duration ("Unknown" when missing), the first artist's name ("Unknown" when
    * the list is missing or empty) and the last thumbnail's URL (none when the list is missing or empty);
    * or with a 500 carrying the failure's message. */
  lemma SearchResults(q: Option<string>, client: Option<Catalog>)
    requires Truthy(q)
    ensures client == None ==> RunSearch(q, client).response == Error(500, "YTMusic not initialized")
    ensures client.Some? && client.value(q.value, "songs", 10).Raised? ==>
            RunSearch(q, client).response == Error(500, client.value(q.value, "songs", 10).message)
    ensures client.Some? && client.value(q.value, "songs", 10).Returned? ==>
            var items := client.value(q.value, "songs", 10).value;
            var run := RunSearch(q, client);
            run.response.Results? && |run.response.results| == |items| &&
            forall i :: 0 <= i < |items| ==> SongOf(run.response.results[i], items[i])
  {
    if client.Some? && client.value(q.value, SONGS_FILTER, SEARCH_LIMIT).Returned? {
      var items := client.value(q.value, SONGS_FILTER, SEARCH_LIMIT).value;
      ShapeAllAt(items);
      forall i | 0 <= i < |items| ensures SongOf(ShapeAll(items)[i], items[i]) {
        ShapeMeetsSongOf(items[i]);
      }
    }
  }

  // ---------------------------------------------------------------------------
  // The home page.
  // ---------------------------------------------------------------------------

  /** The first `n` elements, or all of them when there are fewer (Python's `xs[:n]`). */
  function Take<T>(xs: seq<T>, n: nat): (r: seq<T>)
    ensures |r| == if |xs| < n then |xs| else n
    ensures r == xs[..|r|]
  {
    if |xs| <= n then xs else xs[..n]
  }

  /** The home page: 50 popular songs, reshaped, put in the order `shuffle`
    * gives them, and the first 10 shown; any failure becomes an error line. */
  function RunIndex(client: Option<Catalog>, shuffle: seq<Song> -> seq<Song>): IndexRun {
    if client == None then IndexRun(PageError(SUGGESTIONS_ERROR_PREFIX + NOT_INITIALIZED_MESSAGE), [])
    else
      var request := Query(POPULAR_QUERY, SONGS_FILTER, POPULAR_LIMIT);
      match client.value(POPULAR_QUERY, SONGS_FILTER, POPULAR_LIMIT)
      case Raised(message) => IndexRun(PageError(SUGGESTIONS_ERROR_PREFIX + message), [request])
      case Returned(items) => IndexRun(Suggestions(Take(shuffle(ShapeAll(items)), SUGGESTION_COUNT)), [request])
  }

  /** The home page asks the catalog once, for 50 songs, when a client exists, and turns every failure into an error line. */
  lemma IndexQueries(client: Option<Catalog>, shuffle: seq<Song> -> seq<Song>)
    ensures client == None ==> RunIndex(client, shuffle) == IndexRun(PageError(SUGGESTIONS_ERROR_PREFIX + NOT_INITIALIZED_MESSAGE), [])
    ensures client.Some? ==> RunIndex(client, shuffle).queries == [Query("popular music", "songs", 50)]
    ensures client.Some? && client.value("popular music", "songs", 50).Raised? ==>
            RunIndex(client, shuffle).page == PageError("Could not load suggestions: " + client.value("popular music", "songs", 50).message)
  {
  }

  /** When `shuffle` only reorders, the home page shows min(10, n) of the n
    * songs fetched, each one of them, and none more often than it was fetched. */
  lemma IndexSuggestions(client: Option<Catalog>, shuffle: seq<Song> -> seq<Song>)
    requires client.Some? && client.value("popular music", "songs", 50).Returned?
    requires var songs := ShapeAll(client.value("popular music", "songs", 50).value);
             multiset(shuffle(songs)) == multiset(songs)
    ensures var items := client.value("popular music", "songs", 50).value;
            var page := RunIndex(client, shuffle).page;
            page.Suggestions? &&
            |page.songs| == (if |items| < 10 then |items| else 10) &&
            multiset(page.songs) <= multiset(ShapeAll(items)) &&
            forall s :: s in page.songs ==> exists i :: 0 <= i < |items| && s == Shape(items[i])
  {
    var items := client.value(POPULAR_QUERY, SONGS_FILTER, POPULAR_LIMIT).value;
    var songs := ShapeAll(items);
    var shuffled := shuffle(songs);
    ShapeAllAt(items);
    assert |shuffled| == |songs| by {
      assert |multiset(shuffled)| == |multiset(songs)|;
    }
    var page := Take(shuffled, SUGGESTION_COUNT);
    assert shuffled == page + shuffled[|page|..];
    assert multiset(shuffled) == multiset(page) + multiset(shuffled[|page|..]);
    forall s | s in page ensures exists i :: 0 <= i < |items| && s == Shape(items[i]) {
      assert s in multiset(songs);
      var i :| 0 <= i < |songs| && songs[i] == s;
      assert s == Shape(items[i]);
    }
  }
}
