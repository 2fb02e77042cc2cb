/**
 * The browser player: a queue of tracks, the index of the track being played
 * (-1 before any track has been chosen) and a cache from video ID to stream
 * URL. The stream endpoint is an oracle `fetch` from a video ID to what the
 * request gave back. The navigation methods return the video ID they start
 * playing; playing it is `PlaySong`, a separate step.
 */
module Player {
  import opened Wrappers
  import opened Common

  const TRACK_NOT_FOUND_MESSAGE := "Track not found in queue"
  const FETCH_FAILED_MESSAGE := "Failed to fetch stream URL"
  const ALERT_PREFIX := "Error: "
  /** The album-art fallback exactly as the script writes it; the script is served as a static file, so the template tag is never expanded. */
  const DEFAULT_COVER := "{% static 'default-cover.jpg' %}"
  const NO_SONG_MESSAGE := "No song selected to download!"

  datatype Track = Track(title: string, artist: string, videoId: string, thumbnail: string)

  /** What a request to the stream endpoint gave back: the response's `ok` flag
    * and the `url` and `error` keys of its JSON body, or the message of the
    * exception raised when the request or the decoding failed. */
  datatype StreamReply = Body(ok: bool, url: Option<string>, error: Option<string>) | Unreachable(message: string)

  type StreamFetch = string -> StreamReply

  /** A value read from the cache object: `undefined`, a string, or a member the
    * object inherits from `Object.prototype` (a function, or the prototype itself
    * for `__proto__`), named by its key. */
  datatype JsValue = Undefined | Text(text: string) | Builtin(name: string)

  /** What a call to play a track ends in: the track shown with its title,
    * artist and cover, and the value handed to the audio element's `src`; or an alert. */
  datatype PlayOutcome = Playing(track: Track, title: string, artist: string, cover: string, source: JsValue) | Alerted(message: string)

  /** What was clicked in the queue list: a rendered queue item with its `data-index`, or anything else. */
  datatype ClickTarget = QueueItem(dataIndex: nat) | Elsewhere

  /** Where the download button sends the browser (the query string's values), or the alert it shows. */
  datatype DownloadAction = Navigate(videoId: string, title: string, artist: string) | DownloadAlert(message: string)

  // ---------------------------------------------------------------------------
  // The URL cache.
  // ---------------------------------------------------------------------------

  /** The keys a plain object literal inherits from `Object.prototype` (sections 20.1.3 and B.2.2 of ECMA-262). */
  const OBJECT_PROTOTYPE_KEYS: set<string> := {
    "constructor", "hasOwnProperty", "isPrototypeOf", "propertyIsEnumerable", "toLocaleString",
    "toString", "valueOf", "__proto__", "__defineGetter__", "__defineSetter__",
    "__lookupGetter__", "__lookupSetter__"}

  /** A JSON string field as a JavaScript value: a missing key reads as `undefined`. */
  function FromJson(field: Option<string>): JsValue {
    if field.Some? then Text(field.value) else Undefined
  }

  /** JavaScript truthiness: a non-empty string, or any inherited function or object. */
  predicate JsTruthy(v: JsValue) {
    v.Builtin? || (v.Text? && v.text != "")
  }

  /** Reading `prefetchedURLs[videoId]`. The cache holds the object's own keys, so an own key gives
    * its stored value, a key the object inherits gives the inherited member, and any other key `undefined`. */
  function Lookup(cache: map<string, Option<string>>, videoId: string): JsValue {
    if videoId in cache then FromJson(cache[videoId])
    else if videoId in OBJECT_PROTOTYPE_KEYS then Builtin(videoId)
    else Undefined
  }

  /** A URL counts as cached when reading the key yields a truthy value. */
  predicate Cached(cache: map<string, Option<string>>, videoId: string) {
    JsTruthy(Lookup(cache, videoId))
  }

  /** The cache after prefetching `videoId`: unchanged when it is cached
    * already, otherwise the URL the endpoint returned, stored only when it is
    * non-empty; failures leave the cache as it was. */
  function Prefetched(cache: map<string, Option<string>>, videoId: string, fetch: StreamFetch): map<string, Option<string>> {
    if Cached(cache, videoId) then cache
    else match fetch(videoId)
      case Unreachable(_) => cache
      case Body(_, url, _) => if Truthy(url) then cache[videoId := url] else cache
  }

  /** An ID that names an inherited member, such as `"constructor"` (a well-formed 11-character ID),
    * reads as cached until the object has an own key of that name: prefetching it asks nothing, and
    * playing it hands the inherited member to the audio element without asking the endpoint. */
  lemma InheritedKeysReadAsCached(queue: seq<Track>, cache: map<string, Option<string>>, videoId: string, fetch: StreamFetch)
    requires videoId in OBJECT_PROTOTYPE_KEYS && videoId !in cache
    ensures Cached(cache, videoId)
    ensures Prefetched(cache, videoId, fetch) == cache
    ensures Played(queue, cache, videoId, fetch).1 == cache
    ensures FindTrack(queue, videoId).Some? ==>
            Played(queue, cache, videoId, fetch).0.Playing? && Played(queue, cache, videoId, fetch).0.source == Builtin(videoId)
  {
  }

  /** Prefetching a cached ID changes nothing and does not depend on the endpoint at all. */
  lemma PrefetchCachedIsNoOp(cache: map<string, Option<string>>, videoId: string, fetch: StreamFetch, other: StreamFetch)
    requires Cached(cache, videoId)
    ensures Prefetched(cache, videoId, fetch) == cache
    ensures Prefetched(cache, videoId, fetch) == Prefetched(cache, videoId, other)
  {
  }

  /** Prefetching touches at most the one key, never drops a cached URL, and
    * afterwards the ID is cached exactly when it was, or the endpoint gave a non-empty URL. */
  lemma PrefetchEffect(cache: map<string, Option<string>>, videoId: string, fetch: StreamFetch)
    ensures var after := Prefetched(cache, videoId, fetch);
            after.Keys == cache.Keys || after.Keys == cache.Keys + {videoId}
    ensures var after := Prefetched(cache, videoId, fetch);
            forall k :: k in cache && k != videoId ==> k in after && after[k] == cache[k]
    ensures Cached(Prefetched(cache, videoId, fetch), videoId) <==>
            Cached(cache, videoId) || (fetch(videoId).Body? && Truthy(fetch(videoId).url))
    ensures forall k :: Cached(cache, k) ==> Cached(Prefetched(cache, videoId, fetch), k)
  {
  }

  // ---------------------------------------------------------------------------
  // Playing a track.
  // ---------------------------------------------------------------------------

  /** The first track in the queue with the given video ID. */
  function FindTrack(queue: seq<Track>, videoId: string): (r: Option<nat>)
    ensures r.Some? ==> r.value < |queue| && queue[r.value].videoId == videoId
    ensures r.Some? ==> forall j :: 0 <= j < r.value ==> queue[j].videoId != videoId
    ensures r.None? <==> forall j :: 0 <= j < |queue| ==> queue[j].videoId != videoId
  {
    if queue == [] then None
    else if queue[0].videoId == videoId then Some(0)
    else match FindTrack(queue[1..], videoId)
      case None => None
      case Some(k) => Some(k + 1)
  }

  function Shown(track: Track, source: JsValue): PlayOutcome {
    Playing(track,
      if track.title == "" then UNKNOWN_TITLE else track.title,
      if track.artist == "" then UNKNOWN_ARTIST else track.artist,
      if track.thumbnail == "" then DEFAULT_COVER else track.thumbnail,
      source)
  }

  /** What playing `videoId` shows and the cache afterwards: a track not in the
    * queue is an alert; a cached URL is used as it is; otherwise the endpoint is
    * asked, a failed response, an error body or an exception is an alert that
    * leaves the cache alone, and the body's URL, whatever it is, is stored and played. */
  function Played(queue: seq<Track>, cache: map<string, Option<string>>, videoId: string, fetch: StreamFetch): (PlayOutcome, map<string, Option<string>>) {
    match FindTrack(queue, videoId)
    case None => (Alerted(ALERT_PREFIX + TRACK_NOT_FOUND_MESSAGE), cache)
    case Some(i) =>
      if Cached(cache, videoId) then (Shown(queue[i], Lookup(cache, videoId)), cache)
      else match fetch(videoId)
        case Unreachable(message) => (Alerted(ALERT_PREFIX + message), cache)
        case Body(ok, url, error) =>
          if !ok then (Alerted(ALERT_PREFIX + FETCH_FAILED_MESSAGE), cache)
          else if Truthy(error) then (Alerted(ALERT_PREFIX + error.value), cache)
          else (Shown(queue[i], FromJson(url)), cache[videoId := url])
  }

  /** A cached URL is played without asking the endpoint: the outcome and the cache do not depend on it. */
  lemma PlayCachedSkipsFetch(queue: seq<Track>, cache: map<string, Option<string>>, videoId: string, fetch: StreamFetch, other: StreamFetch)
    requires Cached(cache, videoId)
    ensures Played(queue, cache, videoId, fetch) == Played(queue, cache, videoId, other)
    ensures Played(queue, cache, videoId, fetch).1 == cache
    ensures FindTrack(queue, videoId).Some? ==>
            Played(queue, cache, videoId, fetch).0.Playing? && Played(queue, cache, videoId, fetch).0.source == Lookup(cache, videoId)
  {
  }

  /** A track is played only when it is in the queue, and then it is the first queued track with that ID. */
  lemma PlayedTrackIsQueued(queue: seq<Track>, cache: map<string, Option<string>>, videoId: string, fetch: StreamFetch)
    ensures var outcome := Played(queue, cache, videoId, fetch).0;
            outcome.Playing? ==> outcome.track in queue && outcome.track.videoId == videoId
    ensures var outcome := Played(queue, cache, videoId, fetch).0;
            outcome.Playing? ==> FindTrack(queue, videoId).Some? && outcome.track == queue[FindTrack(queue, videoId).value]
    ensures (forall j :: 0 <= j < |queue| ==> queue[j].videoId != videoId) ==>
            Played(queue, cache, videoId, fetch) == (Alerted(ALERT_PREFIX + TRACK_NOT_FOUND_MESSAGE), cache)
  {
    match FindTrack(queue, videoId) {
      case None =>
      case Some(i) => assert queue[i] in queue;
    }
  }

  /** Playing touches only the played ID's cache entry, and writes it only when it was not cached and the endpoint answered with a body without an error. */
  lemma PlayCacheEffect(queue: seq<Track>, cache: map<string, Option<string>>, videoId: string, fetch: StreamFetch)
    ensures var after := Played(queue, cache, videoId, fetch).1;
            after == cache || (!Cached(cache, videoId) && fetch(videoId).Body? && fetch(videoId).ok &&
                               !Truthy(fetch(videoId).error) && after == cache[videoId := fetch(videoId).url])
    ensures var (outcome, after) := Played(queue, cache, videoId, fetch);
            outcome.Playing? ==> outcome.source == Lookup(after, videoId)
  {
  }

  // ---------------------------------------------------------------------------
  // The player's state.
  // ---------------------------------------------------------------------------

  class PlayerState {
    var queue: seq<Track>
    var currentTrackIndex: int
    /** The cache object's own keys; a stored value may be `undefined` when a stream body had no `url`. */
    var prefetchedURLs: map<string, Option<string>>

    /** The index is -1 exactly while the queue is empty, and a position in the queue otherwise. */
    predicate Valid()
      reads this
    {
      -1 <= currentTrackIndex < |queue| && (currentTrackIndex == -1 <==> queue == [])
    }

    constructor ()
      ensures Valid()
      ensures queue == [] && currentTrackIndex == -1 && prefetchedURLs == map[]
    {
      queue := [];
      currentTrackIndex := -1;
      prefetchedURLs := map[];
    }

    /** Asks for the stream URL of `videoId` unless it is cached, and caches a non-empty answer. */
    method Prefetch(videoId: string, fetch: StreamFetch)
      modifies this
      ensures prefetchedURLs == Prefetched(old(prefetchedURLs), videoId, fetch)
      ensures queue == old(queue) && currentTrackIndex == old(currentTrackIndex)
    {
      if JsTruthy(Lookup(prefetchedURLs, videoId)) {
        return;
      }
      var reply := fetch(videoId);
      if reply.Body? && Truthy(reply.url) {
        prefetchedURLs := prefetchedURLs[videoId := reply.url];
      }
    }

    /** Shows the first queued track with `videoId` and starts its stream, from the cache when it is there. */
    method PlaySong(videoId: string, fetch: StreamFetch) returns (outcome: PlayOutcome)
      modifies this
      ensures (outcome, prefetchedURLs) == Played(old(queue), old(prefetchedURLs), videoId, fetch)
      ensures queue == old(queue) && currentTrackIndex == old(currentTrackIndex)
    {
      var found := FindTrack(queue, videoId);
      if found.None? {
        return Alerted(ALERT_PREFIX + TRACK_NOT_FOUND_MESSAGE);
      }
      var track := queue[found.value];
      var url := Lookup(prefetchedURLs, videoId);
      if !JsTruthy(url) {
        var reply := fetch(videoId);
        if reply.Unreachable? {
          return Alerted(ALERT_PREFIX + reply.message);
        }
        if !reply.ok {
          return Alerted(ALERT_PREFIX + FETCH_FAILED_MESSAGE);
        }
        if Truthy(reply.error) {
          return Alerted(ALERT_PREFIX + reply.error.value);
        }
        url := FromJson(reply.url);
        prefetchedURLs := prefetchedURLs[videoId := reply.url];
      }
      outcome := Shown(track, url);
    }

    /** Appends `track`, prefetches its stream, and selects it when nothing was selected yet; returns the ID to play. */
    method AddToQueue(track: Track, fetch: StreamFetch) returns (toPlay: Option<string>)
      requires Valid()
      modifies this
      ensures Valid()
      ensures queue == old(queue) + [track]
      ensures prefetchedURLs == Prefetched(old(prefetchedURLs), track.videoId, fetch)
      ensures old(currentTrackIndex) == -1 ==> currentTrackIndex == 0 && toPlay == Some(queue[0].videoId)
      ensures old(currentTrackIndex) != -1 ==> currentTrackIndex == old(currentTrackIndex) && toPlay == None
    {
      queue := queue + [track];
      Prefetch(track.videoId, fetch);
      toPlay := None;
      if currentTrackIndex == -1 {
        currentTrackIndex := 0;
        toPlay := Some(queue[currentTrackIndex].videoId);
      }
    }

    /** Selects the clicked queue item, if a queue item was clicked; returns the ID to play. */
    method HandleQueueItemClick(target: ClickTarget) returns (toPlay: Option<string>)
      requires Valid()
      requires target.QueueItem? ==> target.dataIndex < |queue|
      modifies this
      ensures Valid()
      ensures queue == old(queue) && prefetchedURLs == old(prefetchedURLs)
      ensures target.QueueItem? ==> currentTrackIndex == target.dataIndex && toPlay == Some(queue[target.dataIndex].videoId)
      ensures target.Elsewhere? ==> currentTrackIndex == old(currentTrackIndex) && toPlay == None
    {
      toPlay := None;
      if target.QueueItem? {
        currentTrackIndex := target.dataIndex;
        toPlay := Some(queue[currentTrackIndex].videoId);
      }
    }

    /** Moves to the next track when there is one; returns the ID to play. */
    method PlayNext() returns (toPlay: Option<string>)
      requires Valid()
      modifies this
      ensures Valid()
      ensures queue == old(queue) && prefetchedURLs == old(prefetchedURLs)
      ensures old(currentTrackIndex) < |queue| - 1 ==>
              currentTrackIndex == old(currentTrackIndex) + 1 && toPlay == Some(queue[currentTrackIndex].videoId)
      ensures old(currentTrackIndex) >= |queue| - 1 ==> currentTrackIndex == old(currentTrackIndex) && toPlay == None
    {
      toPlay := None;
      if currentTrackIndex < |queue| - 1 {
        currentTrackIndex := currentTrackIndex + 1;
        toPlay := Some(queue[currentTrackIndex].videoId);
      }
    }

    /** Moves to the previous track when there is one; returns the ID to play. */
    method PlayPrevious() returns (toPlay: Option<string>)
      requires Valid()
      modifies this
      ensures Valid()
      ensures queue == old(queue) && prefetchedURLs == old(prefetchedURLs)
      ensures old(currentTrackIndex) > 0 ==>
              currentTrackIndex == old(currentTrackIndex) - 1 && toPlay == Some(queue[currentTrackIndex].videoId)
      ensures old(currentTrackIndex) <= 0 ==> currentTrackIndex == old(currentTrackIndex) && toPlay == None
    {
      toPlay := None;
      if currentTrackIndex > 0 {
        currentTrackIndex := currentTrackIndex - 1;
        toPlay := Some(queue[currentTrackIndex].videoId);
      }
    }

    /** When the audio starts playing, prefetches the track after the current one, if there is one. */
    method OnPlay(fetch: StreamFetch)
      requires Valid()
      modifies this
      ensures Valid()
      ensures queue == old(queue) && currentTrackIndex == old(currentTrackIndex)
      ensures currentTrackIndex + 1 < |queue| ==>
              prefetchedURLs == Prefetched(old(prefetchedURLs), queue[currentTrackIndex + 1].videoId, fetch)
      ensures currentTrackIndex + 1 >= |queue| ==> prefetchedURLs == old(prefetchedURLs)
    {
      if |queue| > currentTrackIndex + 1 {
        Prefetch(queue[currentTrackIndex + 1].videoId, fetch);
      }
    }

    /** The download button: the current track's ID, title and artist, or an alert when none is selected. */
    function Download(): (action: DownloadAction)
      requires Valid()
      reads this
      ensures action.DownloadAlert? <==> queue == []
      ensures action.Navigate? ==> action == Navigate(queue[currentTrackIndex].videoId, queue[currentTrackIndex].title, queue[currentTrackIndex].artist)
    {
      if currentTrackIndex >= 0 then
        var track := queue[currentTrackIndex];
        Navigate(track.videoId, track.title, track.artist)
      else DownloadAlert(NO_SONG_MESSAGE)
    }
  }

  // ---------------------------------------------------------------------------
  // Rendering a duration.
  // ---------------------------------------------------------------------------

  function DigitChar(d: nat): char
    requires d < 10
  {
    "0123456789"[d]
  }

  predicate IsDigit(c: char) {
    '0' <= c <= '9'
  }

  function DigitValue(c: char): nat
    requires IsDigit(c)
  {
    c as int - '0' as int
  }

  /** The decimal numeral of `n`, without leading zeros. */
  function NatToString(n: nat): (s: string)
    ensures |s| >= 1 && forall k :: 0 <= k < |s| ==> IsDigit(s[k])
  {
    if n < 10 then [DigitChar(n)] else NatToString(n / 10) + [DigitChar(n % 10)]
  }

  /** The value of a numeral. */
  function ParseNat(s: string): nat
    requires forall k :: 0 <= k < |s| ==> IsDigit(s[k])
  {
    if s == [] then 0 else ParseNat(s[..|s| - 1]) * 10 + DigitValue(s[|s| - 1])
  }

  lemma DigitRoundTrip(d: nat)
    requires d < 10
    ensures IsDigit(DigitChar(d)) && DigitValue(DigitChar(d)) == d
  {
  }

  /** Reading back a numeral gives the number it was written from. */
  lemma {:induction false} NatRoundTrip(n: nat)
    ensures ParseNat(NatToString(n)) == n
  {
    DigitRoundTrip(n % 10);
    if n >= 10 {
      var prefix := NatToString(n / 10);
      NatRoundTrip(n / 10);
      assert NatToString(n)[..|NatToString(n)| - 1] == prefix;
    }
  }

  /** A number below 60 as two digits, padded with a leading zero. */
  function Pad2(n: nat): string
    requires n < 60
  {
    if n < 10 then "0" + [DigitChar(n)] else NatToString(n)
  }

  /** A whole number of seconds as minutes, a colon and two digits of seconds; "0:00" for no time. */
  function FormatDuration(seconds: nat): string {
    if seconds == 0 then "0:00" else NatToString(seconds / 60) + ":" + Pad2(seconds % 60)
  }

  /** The reading of "M:SS": the minutes, then a colon, then two digits that make less than 60. */
  function ParseDuration(s: string): Option<nat> {
    if |s| < 4 || s[|s| - 3] != ':' then None
    else
      var minutes := s[..|s| - 3];
      var secs := s[|s| - 2..];
      if (forall k :: 0 <= k < |minutes| ==> IsDigit(minutes[k])) && IsDigit(secs[0]) && IsDigit(secs[1]) &&
         DigitValue(secs[0]) * 10 + DigitValue(secs[1]) < 60
      then Some(ParseNat(minutes) * 60 + DigitValue(secs[0]) * 10 + DigitValue(secs[1]))
      else None
  }

  /** The two-digit field reads back as the number of seconds it was written from. */
  lemma Pad2Value(n: nat)
    requires n < 60
    ensures |Pad2(n)| == 2 && IsDigit(Pad2(n)[0]) && IsDigit(Pad2(n)[1])
    ensures DigitValue(Pad2(n)[0]) * 10 + DigitValue(Pad2(n)[1]) == n
  {
    DigitRoundTrip(n % 10);
    DigitRoundTrip(n / 10);
    if n >= 10 {
      assert NatToString(n) == NatToString(n / 10) + [DigitChar(n % 10)];
      assert NatToString(n / 10) == [DigitChar(n / 10)];
    } else {
      assert Pad2(n) == "0" + [DigitChar(n)];
    }
  }

  /** Zero seconds renders like any other number of seconds would: minutes, colon, padded seconds. */
  lemma FormatDurationParts(seconds: nat)
    ensures FormatDuration(seconds) == NatToString(seconds / 60) + ":" + Pad2(seconds % 60)
  {
    if seconds == 0 {
      assert NatToString(0) == "0";
      assert Pad2(0) == "00";
    }
  }

  /** The rendering: minutes, a colon, then a seconds field of exactly two digits worth less than 60; "0:00" for 0. */
  lemma FormatDurationShape(seconds: nat)
    ensures FormatDuration(0) == "0:00"
    ensures var s := FormatDuration(seconds);
            |s| >= 4 && s[|s| - 3] == ':' && IsDigit(s[|s| - 2]) && IsDigit(s[|s| - 1]) &&
            DigitValue(s[|s| - 2]) * 10 + DigitValue(s[|s| - 1]) == seconds % 60 < 60 &&
            ParseNat(s[..|s| - 3]) == seconds / 60
  {
    var minutes := NatToString(seconds / 60);
    var secs := Pad2(seconds % 60);
    var s := minutes + ":" + secs;
    FormatDurationParts(seconds);
    Pad2Value(seconds % 60);
    NatRoundTrip(seconds / 60);
    assert s[..|s| - 3] == minutes;
    assert s[|s| - 2] == secs[0] && s[|s| - 1] == secs[1];
  }

  /** The rendering of any number of seconds reads back as that number: no two durations render alike. */
  lemma FormatDurationRoundTrip(seconds: nat)
    ensures ParseDuration(FormatDuration(seconds)) == Some(seconds)
  {
    var s := FormatDuration(seconds);
    FormatDurationShape(seconds);
    assert s[|s| - 2..][0] == s[|s| - 2] && s[|s| - 2..][1] == s[|s| - 1];
    assert seconds == seconds / 60 * 60 + seconds % 60;
  }
}
