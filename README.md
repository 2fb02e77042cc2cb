# A verified model of a music-streaming web app's core

The application is a small Django backend with a browser player. Listeners
search a music catalog, stream tracks and download them. This project models
four parts of it in Dafny and proves properties of each part:

- **Stream resolution** (`get_stream`, `stream_resolver.dfy`). The catalog client is tried first: the first adaptive format whose MIME type names `audio/mp4` or `audio/mpeg` is used, and its URL is probed with an HTTP HEAD. If there is no client, no such URL, or the probe answers something other than 200, the extraction library is asked for the watch page. Its URL is probed in turn. The endpoint answers 200 with the stream record, 400 for a missing ID, 404 when no stream was found, or 500. The resolver also returns the calls it made, in order, so the order of provider use can be stated. `GetStream` is the same logic written as an early-return method and proved equal to `Resolve`.
- **The download endpoint** (`download_song`, `download.dfy`). It sanitises the title and the artist, builds the filename `"<title> - <artist>.mp3"`, and runs its three checks in order.
- **The search view and the home page** (`search` and `index`, `search.dfy`). Both turn catalog items into song records. The home page shuffles the songs it fetched and shows the first ten.
- **The browser player** (`static/script.js`, `player.dfy`). A `PlayerState` class holds the queue, the current index and the prefetched-URL cache, and its methods update that state in place. The script's `addToQueue`, `handleQueueItemClick`, `playNext` and `playPrevious` end by calling `playSong`; the corresponding methods instead return the video ID they would play, and `PlaySong` is a method of its own that the caller runs next. The module also formats durations as `M:SS`.

Every provider, the network and the random shuffle are function parameters (oracles). The properties hold whatever those parameters return, with four exceptions that say what they assume:

- `Search.IndexSuggestions` assumes the shuffle only reorders the songs;
- `Download.FilenameExample` assumes `isAlnum` agrees with ASCII letters and digits on ASCII characters;
- `Player.PlayerState.HandleQueueItemClick` assumes a clicked queue item's index is a position in the queue, as the rendered list guarantees;
- `Download.DispositionQuotesFilename` assumes `isAlnum` rejects the double quote, as `str.isalnum` does.

The parameters are:

- the catalog client (`None` when it failed to initialise);
- the extraction library;
- the HEAD probe;
- the stream endpoint as the browser sees it;
- `str.isalnum`;
- `random.shuffle`.

Python truthiness of an optional string is `Wrappers.Truthy`: the string is present and not empty.

## Model

| member | source | states |
|---|---|---|
| StreamResolver.Resolve | main/views.py:78-146 | defines the endpoint's response and the calls it makes; properties in StatusCodes, BadRequestExactlyWithoutId, CallDiscipline, FoundUrlWasProbed and FoundComesFromOneTier |
| StreamResolver.PrimaryTier | main/views.py:86-112 | defines the catalog tier's answer, or its hand-over to the fallback; properties in PrimaryDeclinesExactly, PrimaryFirstMatchWins and PrimaryExceptionIsServerError |
| StreamResolver.FallbackTier | main/views.py:114-142 | defines the fallback's answer; properties in FallbackAnswers, FallbackRunsOnce and FallbackTitleArtistDefaults |
| StreamResolver.FallbackUrl | main/views.py:123 | defines the fallback's URL choice; properties in FallbackUrlChoice |
| StreamResolver.AlbumArt | main/views.py:108 | defines the catalog tier's album art; properties in AlbumArtChoice |
| StreamResolver.DetailTitle | main/views.py:106 | defines the catalog title or its placeholder; properties in PrimaryTitleArtistDefaults |
| StreamResolver.DetailAuthor | main/views.py:107 | defines the catalog author or its placeholder; properties in PrimaryTitleArtistDefaults |
| StreamResolver.IsAudio | main/views.py:94-95 | defines the MP4-or-MPEG audio test, with a missing MIME type read as empty; properties in FirstAudioIndex and SelectAudioUrl |
| StreamResolver.Contains | main/views.py:95 | defines Python's substring test `in` on strings; used by IsAudio |
| StreamResolver.AdaptiveFormats | main/views.py:89-90 | defines the catalog's format list, with a missing `streamingData` or `adaptiveFormats` key read as no formats; properties in PrimaryFirstMatchWins and PrimaryDeclinesExactly |
| StreamResolver.PrimaryAudioUrl | main/views.py:92-97 | defines the loop's result, the `url` of the first audio format or none; SelectAudioUrl is proved equal to it, and FirstAudioIndex characterises the format it reads |
| StreamResolver.DetailDuration | main/views.py:109 | defines the catalog tier's duration, `lengthSeconds` or none along a missing key; properties in PrimaryFirstMatchWins |
| StreamResolver.WatchUrl | main/views.py:122 | defines the watch-page URL handed to the extraction library; properties in FallbackRunsOnce |
| StreamResolver.FirstAudioIndex | main/views.py:92-97 | the index found is the first format whose MIME type names MP4 or MPEG audio; no index means no format matches |
| StreamResolver.SelectAudioUrl | main/views.py:92-97 | the loop's URL equals the first matching format's `url` (absent when no format matches), and any URL it returns belongs to a matching format |
| StreamResolver.GetStream | main/views.py:78-146 | the early-return implementation gives exactly the response and call sequence of `Resolve` |
| StreamResolver.StatusCodes | main/views.py:78-146 | the endpoint answers only 200, 400, 404 or 500 |
| StreamResolver.BadRequestExactlyWithoutId | main/views.py:80-82 | 400 is answered exactly when the ID is missing or empty, and then no provider is called |
| StreamResolver.PrimaryFirstMatchWins | main/views.py:86-110 | when the catalog's first matching URL is present and its probe answers 200, the response is that URL with the catalog's title, author, last thumbnail and length, after exactly a catalog call and one probe |
| StreamResolver.PrimaryDeclinesExactly | main/views.py:86-112 | the catalog tier hands on to the fallback exactly when there is no client, no truthy first-match URL, or a probe status other than 200 |
| StreamResolver.PrimaryExceptionIsServerError | main/views.py:84-146 | an exception from the catalog ends the request with 500 and its message; the fallback is not tried |
| StreamResolver.AlbumArtChoice | main/views.py:108 | album art is the last thumbnail's `url`; a missing key gives none; a present but empty list raises `IndexError` |
| StreamResolver.PrimaryEmptyThumbnailsIsServerError | main/views.py:101-146 | a reachable catalog URL whose thumbnail list is empty ends in 500 with the `IndexError` message, after two calls |
| StreamResolver.FallbackRunsOnce | main/views.py:114-123 | after the catalog tier declines, the fallback runs once: one extraction of the watch URL with the MP3/M4A/best-audio preference, then at most one probe |
| StreamResolver.TierCalls | main/views.py:88-130 | the catalog tier makes at most a catalog call then a probe; the fallback makes an extraction then at most a probe |
| StreamResolver.CallsInOrder | main/views.py:84-130 | the catalog tier's calls followed by at most one fallback run never ask the catalog after the fallback, and never extract twice |
| StreamResolver.CallDiscipline | main/views.py:84-146 | every request makes at most four calls, asks the catalog at most once and before the fallback, and runs the extraction at most once |
| StreamResolver.FoundUrlWasProbed | main/views.py:101-136 | a 200 answer carries a non-empty URL that was itself probed with answer 200, as the last call made |
| StreamResolver.FallbackAnswers | main/views.py:125-142 | on the fallback, no URL gives 404 "No audio stream found", a status other than 200 gives 500 "Stream URL not accessible", and 200 returns the URL with the extracted thumbnail and duration (none when `duration` is absent) |
| StreamResolver.FallbackUrlChoice | main/views.py:123 | the fallback URL is a truthy `info.url`, else the first format's `url`; a missing `formats` gives no URL; a present but empty `formats` raises |
| StreamResolver.FoundComesFromOneTier | main/views.py:86-142 | every 200 answer is the catalog tier's own answer, or the fallback's after the catalog tier declined |
| StreamResolver.PrimaryTitleArtistDefaults | main/views.py:106-107 | on the catalog tier, title and artist are replaced by placeholders only when the key is absent; a present value, even an empty one, passes through |
| StreamResolver.FallbackTitleArtistDefaults | main/views.py:138-139 | on the fallback, title and artist fall back to placeholders only when `title` or `uploader` is absent |
| Download.Keep | main/views.py:190-191 | defines the character filter of the join; properties in KeepIsSubsequence, KeepAppend, KeepCounts, KeepOnlyAllowed and KeepAllAllowed |
| Download.Allowed | main/views.py:190-191 | defines the keep condition: alphanumeric, a space, a hyphen or an underscore; properties in KeepOnlyAllowed, KeepCounts and SanitizedCharacters |
| Download.Sanitize | main/views.py:190-191 | defines the filter followed by `rstrip()`; properties in SanitizedCharacters, SanitizeKeepsOrder and SanitizeIdempotent |
| Download.Filename | main/views.py:192 | defines the attachment name; properties in FilenameExample and DownloadOutcomes |
| Download.DownloadSong | main/views.py:169-196 | defines the endpoint's refusals and attachment; properties in DownloadOutcomes |
| Download.ContentDisposition | main/views.py:196 | defines the `Content-Disposition` header; properties in DispositionQuotesFilename and DownloadOutcomes |
| Download.DispositionQuotesFilename | main/views.py:189-196 | when `isalnum` rejects the double quote, the filename holds none, so the header's quoted string is exactly the filename and ends the header |
| Download.TrimTrailingSpaces | main/views.py:190-191 | the result is a prefix of the input that does not end in a space, and only spaces were removed |
| Download.KeepIsSubsequence | main/views.py:190-191 | the filter's output is a subsequence of its input |
| Download.KeepAppend | main/views.py:190-191 | filtering a concatenation is concatenating the filtered parts |
| Download.KeepCounts | main/views.py:190-191 | each allowed character occurs in the output as often as in the input, and no other character occurs |
| Download.KeepOnlyAllowed | main/views.py:190-191 | every character of the filter's output is alphanumeric, a space, a hyphen or an underscore |
| Download.KeepAllAllowed | main/views.py:190-191 | a string made only of allowed characters passes the filter unchanged |
| Download.SanitizedCharacters | main/views.py:190-191 | a sanitised name holds only allowed characters and does not end in a space |
| Download.SanitizeKeepsOrder | main/views.py:190-191 | the sanitised name keeps the input's allowed characters in order, and is the filter's output without its trailing spaces |
| Download.SanitizeIdempotent | main/views.py:190-191 | sanitising twice is sanitising once |
| Download.FilenameExample | main/views.py:189-192 | title "Song: Name?" with artist "Art/ist" gives "Song Name - Artist.mp3" whenever `isalnum` agrees with ASCII letters and digits on ASCII |
| Download.DownloadOutcomes | main/views.py:169-196 | 400 "No video ID provided!" exactly when the ID is missing or empty; a failed stream lookup gives 500 "Error fetching stream URL!"; an audio request answering other than 200 gives 500 "Error downloading audio!"; an attachment exactly when the lookup found a URL whose audio request answered 200; the attachment reads that URL as `audio/mp3` under the sanitised filename, with the placeholders for a missing title or artist, named in its `Content-Disposition` header |
| Search.ShapeAllAt | main/views.py:65-71 | in both views, the shaped list has one song per item, at the same position, built from that item |
| Search.ShapeAllAppend | main/views.py:65-71 | in both views, shaping a concatenation is concatenating the shaped parts |
| Search.Shape | main/views.py:65-71 | defines the song made from one catalog item; properties in SearchResults and ShapeKeepsIdentity |
| Search.ShapeAll | main/views.py:65-71 | defines the list comprehension over the items; properties in ShapeAllAt and ShapeAllAppend |
| Search.ArtistName | main/views.py:67 | defines the artist field; properties in SearchResults |
| Search.LastThumbnail | main/views.py:70 | defines the thumbnail field; properties in SearchResults |
| Search.RunSearch | main/views.py:55-76 | defines the search view's answer and requests; properties in SearchQueries and SearchResults |
| Search.RunIndex | main/views.py:28-53 | defines the home page's suggestions or error line and its request; properties in IndexQueries and IndexSuggestions |
| Search.ShapeKeepsIdentity | main/views.py:65-71 | in both views, shaping keeps title and video ID, and a missing duration becomes "Unknown" |
| Search.SearchQueries | main/views.py:57-64 | a missing or empty query answers with no results and no catalog request; any other query makes one request with the songs filter and limit 10 when a client exists, and none when there is no client |
| Search.SearchResults | main/views.py:61-76 | the search answers with one song per catalog item, in order, carrying the item's title, video ID and duration ("Unknown" when missing), the first artist's name ("Unknown" when the list is missing or empty) and the last thumbnail's URL (none when the list is missing or empty); no client or an exception gives 500 with the message |
| Search.Take | main/views.py:47 | the first n elements, or all of them when there are fewer |
| Search.IndexQueries | main/views.py:30-53 | the home page asks for 50 popular songs once, and any failure becomes "Could not load suggestions: " followed by the message |
| Search.IndexSuggestions | main/views.py:34-47 | when the shuffle only reorders, the page shows min(10, n) of the n songs fetched, each a shaped catalog item, none more often than it was fetched |
| Player.Lookup | static/script.js:203 | defines reading the cache object: an own key gives its stored value, a key inherited from `Object.prototype` the inherited member, any other key `undefined`; properties in InheritedKeysReadAsCached and PrefetchEffect |
| Player.FromJson | static/script.js:207-209 | defines a JSON field as a JavaScript value, a missing `url` read as `undefined`; used by Lookup and Played, properties in PlayCacheEffect |
| Player.JsTruthy | static/script.js:276-281 | defines JavaScript truthiness as the tests `!url` (line 204), `if (prefetchedURLs[videoId])` and `if (data.url)` use it: a non-empty string or an inherited member; properties in PrefetchEffect and InheritedKeysReadAsCached |
| Player.Cached | static/script.js:277 | defines a cache read that yields a truthy value; properties in PrefetchCachedIsNoOp, PrefetchEffect, PlayCachedSkipsFetch and InheritedKeysReadAsCached |
| Player.InheritedKeysReadAsCached | static/script.js:203-213 | an ID naming an inherited member, such as "constructor", reads as cached: prefetching it changes nothing, and playing it hands the inherited member to the audio element without asking the endpoint |
| Player.Prefetched | static/script.js:276-285 | defines the cache after a prefetch; properties in PrefetchCachedIsNoOp, PrefetchEffect and InheritedKeysReadAsCached |
| Player.Played | static/script.js:192-224 | defines the outcome of playing an ID and the cache afterwards; properties in PlayCachedSkipsFetch, PlayedTrackIsQueued, PlayCacheEffect and InheritedKeysReadAsCached |
| Player.Shown | static/script.js:199-201 | defines the title, artist and cover shown, each replaced by its placeholder when empty |
| Player.PrefetchCachedIsNoOp | static/script.js:276-277 | prefetching a cached ID leaves the cache unchanged and does not depend on the endpoint |
| Player.PrefetchEffect | static/script.js:276-285 | prefetching touches only its own key and never uncaches a URL; afterwards the ID is cached exactly if it was or the endpoint returned a non-empty URL |
| Player.FindTrack | static/script.js:196-197 | the index found is the first queued track with the ID; no index means no queued track has it |
| Player.PlayCachedSkipsFetch | static/script.js:203-213 | a cached URL is played as it is: the outcome and the cache do not depend on the endpoint |
| Player.PlayedTrackIsQueued | static/script.js:196-201 | only the first queued track with the ID is ever played; an ID not in the queue gives the alert "Error: Track not found in queue" |
| Player.PlayCacheEffect | static/script.js:203-213 | playing writes at most its own cache entry, and only after an ok answer without an error; what plays is what the cache then holds |
| Player.PlayerState.constructor | static/script.js:2-5 | the player starts with an empty queue, index -1 and an empty cache |
| Player.PlayerState.Valid | static/script.js:116-139 | the `currentTrackIndex` invariant: -1 exactly while the queue is empty, else a queue position; required and ensured by AddToQueue, HandleQueueItemClick, PlayNext, PlayPrevious (static/script.js:254-266) and OnPlay; Prefetch and PlaySong keep it by leaving queue and index unchanged |
| Player.PlayerState.Prefetch | static/script.js:276-285 | the new cache is `Prefetched` of the old one; queue and index are unchanged |
| Player.PlayerState.PlaySong | static/script.js:192-224 | the outcome and the new cache are `Played` of the old queue and cache; queue and index are unchanged |
| Player.PlayerState.AddToQueue | static/script.js:116-124 | the track is appended and prefetched; the index becomes 0 and the first track's ID is returned for playing only when the index was -1, otherwise it is unchanged; the queue invariant is preserved |
| Player.PlayerState.HandleQueueItemClick | static/script.js:134-139 | a click on a rendered queue item selects it and returns its ID for playing; any other click changes nothing |
| Player.PlayerState.PlayNext | static/script.js:254-259 | the index is incremented and the new track's ID returned for playing only when it is before the last position; otherwise nothing changes |
| Player.PlayerState.PlayPrevious | static/script.js:261-266 | the index is decremented and the new track's ID returned for playing only when it is above 0; otherwise nothing changes |
| Player.PlayerState.OnPlay | static/script.js:287-291 | when a track after the current one exists it is prefetched; otherwise the cache is unchanged |
| Player.PlayerState.Download | static/script.js:241-251 | an alert exactly when no track is selected; otherwise the current track's ID, title and artist |
| Player.FormatDuration | static/script.js:269-274 | defines the `M:SS` rendering of whole seconds; properties in FormatDurationShape and FormatDurationRoundTrip |
| Player.Pad2 | static/script.js:273 | defines the two-digit seconds field; properties in Pad2Value |
| Player.NatToString | static/script.js:271-273 | defines the decimal numeral of the minutes; properties in NatRoundTrip |
| Player.NatRoundTrip | static/script.js:271-273 | a decimal numeral reads back as the number it was written from |
| Player.Pad2Value | static/script.js:273 | the padded seconds field is two digits that read back as the seconds |
| Player.FormatDurationParts | static/script.js:270-273 | zero seconds renders as the general formula does, "0:00" |
| Player.FormatDurationShape | static/script.js:269-274 | the rendering of 0 is "0:00"; every rendering is minutes, a colon, and a two-digit seconds field below 60 that reads back as `s mod 60`, with minutes reading back as `floor(s / 60)` |
| Player.FormatDurationRoundTrip | static/script.js:269-274 | parsing a rendered duration gives back the number of seconds, so no two durations render alike |

## Left out

- Networking, the providers and randomness are not implemented. The catalog client, the extraction library, the HEAD probe, the loopback stream request, the audio request, the browser's stream fetch and `random.shuffle` are parameters.
- Logging, template rendering, the DOM and event wiring are not modelled. This covers the search box, result rendering, toggles, the play button and alerts as UI.
- The lyrics view `get_lyrics` and the script's lyrics fetch are not part of this model.
- Signup, login, the user model and URL routing are not modelled. They are standard session glue.
- Streaming the audio body is not modelled. The model covers the `FileResponse` up to the URL read, its content type and its `Content-Disposition` header.
- `HttpResponse` is used in `download_song` but never imported (main/views.py:5, 175). As written, each refusal would therefore raise `NameError` and reach the browser as a generic 500. `Download.DownloadSong` models the statuses and texts the code evidently intends.
- Exceptions in `download_song`'s own requests (a connection error or a body that is not JSON) are not modelled. They are unhandled there.
- A provider key that is present with the value `None` (JSON `null`) is not modelled: each optional key is either missing or holds a value of its type.
- Some keys are read without a default, so a missing one raises `KeyError`. The model makes those keys required fields and does not model the `KeyError`. They are `item['title']` and `item['videoId']` (main/views.py:38, 40, 66, 68), an artist's `name` in `item['artists'][0]['name']` (main/views.py:39, 67), and a thumbnail's `url` in `item['thumbnails'][-1]['url']` (main/views.py:42, 70).
- Behaviour of the code worth noting:
  - An exception from the catalog client or from its HEAD probe returns 500 at once (main/views.py:144-146); the fallback is not tried.
  - An empty title or author present in the provider's data passes through unchanged; the placeholder is used only for a missing key.
- Download.TrimTrailingSpaces: models Python's `rstrip()` as removing trailing spaces only. Of the characters the filter keeps, only the space is whitespace when `isalnum` is Python's; an `isAlnum` parameter that accepts other whitespace characters is outside what this models.
- Player.PlayerState.AddToQueue: the prefetch is modelled as finished before the method returns. In the browser its response can arrive after `playSong` has already consulted the cache.
- One oracle answers every HEAD probe, and one oracle answers every stream request from the browser. The model therefore cannot represent a URL whose HEAD answer changes between the catalog tier's probe and the fallback's probe, as an expiring link can. Nor can it represent a stream request from `prefetchSong` and one from `playSong` that get different answers.
- The `isFetching` guard in `playSong` is not modelled, and neither is any other interleaving of the asynchronous `fetch`/`await` steps. Each method runs to completion.
- Player.PlayerState.PlaySong: does not model `audio.play()` failing, or the lyrics fetch that follows.
- Floating-point UI arithmetic is not modelled: the progress bar, seeking, the volume icon thresholds, and `formatDuration` on fractional or NaN input, on whole seconds from 2^53 up (where a JavaScript Number is no longer exact), or with minutes from 10^21 up (where `Number#toString` switches to exponent notation). `FormatDuration` takes a whole number of seconds, unbounded.
- Player.Lookup: an inherited member read from the cache is kept as its key name (`Builtin`). The model does not turn it into the string that `audio.src` would receive.
- `encodeURIComponent` on the download link is not modelled: `Download` returns the raw values.
- The album-art fallback in `playSong` is the literal text `{% static 'default-cover.jpg' %}`. The template tag is never expanded in a static script. The model keeps the literal.
