/**
  The stream resolver behind `GET /get_stream/?id=<videoId>` (main/views.py, `get_stream`).

  The catalog client (`ytmusic`), the extraction library (`yt_dlp`) and the HTTP HEAD probe are
  parameters: the client is `None` when it failed to initialise, and every call into one of them
  returns a `Reply`, either the value it produced or the message of the exception it raised.
  The resolver also returns the calls it made, in order, so that which providers were asked and
  how often can be stated.
*/
module StreamResolver {
  import opened Wrappers
  import opened Common

  const NO_ID_MESSAGE := "No video ID provided"
  const NO_STREAM_MESSAGE := "No audio stream found"
  const NOT_ACCESSIBLE_MESSAGE := "Stream URL not accessible"
  /** The message of the `IndexError` Python raises when indexing an empty list. */
  const INDEX_ERROR_MESSAGE := "list index out of range"
  const WATCH_PREFIX := "https://www.youtube.com/watch?v="
  /** The `format` option handed to the extraction library: MP3 first, then M4A, then any audio. */
  const FORMAT_PREFERENCE := "bestaudio[ext=mp3]/bestaudio[ext=m4a]/bestaudio"
  const MP4_AUDIO := "audio/mp4"
  const MPEG_AUDIO := "audio/mpeg"

  // ---------------------------------------------------------------------------
  // Provider payloads. Each optional field is a dictionary key that may be absent.

  /** One entry of `streamingData.adaptiveFormats`, or of the extraction result's `formats`. */
  datatype Format = Format(mimeType: Option<string>, url: Option<string>)

  datatype Thumb = Thumb(url: Option<string>)
  datatype ThumbnailSet = ThumbnailSet(thumbnails: Option<seq<Thumb>>)
  datatype VideoDetails = VideoDetails(
    title: Option<string>,
    author: Option<string>,
    thumbnail: Option<ThumbnailSet>,
    lengthSeconds: Option<string>)
  datatype StreamingData = StreamingData(adaptiveFormats: Option<seq<Format>>)
  /** What `ytmusic.get_song(video_id)` returns. */
  datatype SongData = SongData(streamingData: Option<StreamingData>, videoDetails: Option<VideoDetails>)

  /** What `ydl.extract_info(...)` returns. */
  datatype Info = Info(
    url: Option<string>,
    formats: Option<seq<Format>>,
    title: Option<string>,
    uploader: Option<string>,
    thumbnail: Option<string>,
    duration: Option<int>)

  // ---------------------------------------------------------------------------
  // The response.

  /** The primary tier reports `lengthSeconds` as the catalog's text; the fallback reports a number of seconds. */
  datatype Duration = LengthSeconds(text: string) | Seconds(seconds: int)

  datatype StreamResult = StreamResult(
    url: string,
    title: string,
    artist: string,
    albumArt: Option<string>,
    duration: Option<Duration>)

  /** A JSON response: the stream record with status 200, or `{error}` with a status. */
  datatype Response = Found(result: StreamResult) | Failed(status: int, error: string)

  /** A call into a provider or the network. */
  datatype Call =
    | GetSong(videoId: string)
    | ExtractInfo(pageUrl: string, format: string)
    | Head(url: string)

  datatype Resolution = Resolution(response: Response, calls: seq<Call>)

  /** The primary tier either answers the request or hands it on to the fallback. */
  datatype PrimaryOutcome = Answered(response: Response, calls: seq<Call>) | Declined(calls: seq<Call>)

  function StatusCode(r: Response): int {
    if r.Found? then STATUS_OK else r.status
  }

  // ---------------------------------------------------------------------------
  // Format selection.

  predicate IsPrefix(p: string, s: string) {
    |p| <= |s| && s[..|p|] == p
  }

  /** Python's substring test `sub in s`. */
  predicate Contains(s: string, sub: string)
    decreases |s|
  {
    IsPrefix(sub, s) || (s != [] && Contains(s[1..], sub))
  }

  /** A format is audio when its `mimeType` (default `''`) contains `audio/mp4` or `audio/mpeg`. */
  predicate IsAudio(f: Format) {
    var mime := f.mimeType.GetOr("");
    Contains(mime, MP4_AUDIO) || Contains(mime, MPEG_AUDIO)
  }

  /** The catalog's adaptive formats; an absent `streamingData` or `adaptiveFormats` key counts as no formats. */
  function AdaptiveFormats(song: SongData): seq<Format> {
    match song.streamingData
    case None => []
    case Some(data) => data.adaptiveFormats.GetOr([])
  }

  /** The position of the first audio format, if any. */
  function FirstAudioIndex(formats: seq<Format>): (r: Option<nat>)
    ensures r.Some? ==> r.value < |formats| && IsAudio(formats[r.value])
    ensures r.Some? ==> forall j :: 0 <= j < r.value ==> !IsAudio(formats[j])
    ensures r.None? ==> forall j :: 0 <= j < |formats| ==> !IsAudio(formats[j])
  {
    if formats == [] then None
    else if IsAudio(formats[0]) then Some(0)
    else match FirstAudioIndex(formats[1..])
      case None => None
      case Some(i) => Some(i + 1)
  }

  /** The primary URL: the `url` of the first audio format (which may itself be absent), or none. */
  function PrimaryAudioUrl(formats: seq<Format>): Option<string> {
    match FirstAudioIndex(formats)
    case None => None
    case Some(i) => formats[i].url
  }

  /** The selection loop: the first format whose media type matches wins, and the loop stops there. */
  method SelectAudioUrl(formats: seq<Format>) returns (audioUrl: Option<string>)
    ensures audioUrl == PrimaryAudioUrl(formats)
    ensures audioUrl.Some? ==> exists i :: 0 <= i < |formats| && IsAudio(formats[i]) && formats[i].url == audioUrl
  {
    audioUrl := None;
    var i := 0;
    while i < |formats|
      invariant 0 <= i <= |formats|
      invariant audioUrl == None
      invariant forall j :: 0 <= j < i ==> !IsAudio(formats[j])
    {
      var mimeType := formats[i].mimeType.GetOr("");
      if Contains(mimeType, MP4_AUDIO) || Contains(mimeType, MPEG_AUDIO) {
        audioUrl := formats[i].url;
        assert IsAudio(formats[i]);
        return;
      }
      i := i + 1;
    }
  }

  // ---------------------------------------------------------------------------
  // Metadata of the primary tier.

  /** The catalog title, or the placeholder when `videoDetails` or its `title` key is absent. */
  function DetailTitle(details: Option<VideoDetails>): string {
    if details.Some? then details.value.title.GetOr(UNKNOWN_TITLE) else UNKNOWN_TITLE
  }

  /** The catalog author, or the placeholder when `videoDetails` or its `author` key is absent. */
  function DetailAuthor(details: Option<VideoDetails>): string {
    if details.Some? then details.value.author.GetOr(UNKNOWN_ARTIST) else UNKNOWN_ARTIST
  }

  /**
    The `url` of the last catalog thumbnail. A missing key on the way stands for a one-element list
    holding an empty record (so no art); an empty list that is present raises `IndexError`.
  */
  function AlbumArt(details: Option<VideoDetails>): Reply<Option<string>> {
    var thumbs :=
      if details.Some? && details.value.thumbnail.Some? && details.value.thumbnail.value.thumbnails.Some?
      then details.value.thumbnail.value.thumbnails.value
      else [Thumb(None)];
    if thumbs == [] then Raised(INDEX_ERROR_MESSAGE) else Returned(thumbs[|thumbs| - 1].url)
  }

  function DetailDuration(details: Option<VideoDetails>): Option<Duration> {
    if details.Some? && details.value.lengthSeconds.Some?
    then Some(LengthSeconds(details.value.lengthSeconds.value))
    else None
  }

  // ---------------------------------------------------------------------------
  // The two tiers.

  function PrimaryTier(videoId: string, client: Option<string -> Reply<SongData>>, head: string -> Reply<int>): PrimaryOutcome {
    if client.None? then Declined([])
    else
      match client.value(videoId)
      case Raised(e) => Answered(Failed(STATUS_SERVER_ERROR, e), [GetSong(videoId)])
      case Returned(song) =>
        var url := PrimaryAudioUrl(AdaptiveFormats(song));
        if !Truthy(url) then Declined([GetSong(videoId)])
        else
          var probed := [GetSong(videoId), Head(url.value)];
          match head(url.value)
          case Raised(e) => Answered(Failed(STATUS_SERVER_ERROR, e), probed)
          case Returned(code) =>
            if code != STATUS_OK then Declined(probed)
            else
              match AlbumArt(song.videoDetails)
              case Raised(e) => Answered(Failed(STATUS_SERVER_ERROR, e), probed)
              case Returned(art) =>
                var details := song.videoDetails;
                Answered(
                  Found(StreamResult(url.value, DetailTitle(details), DetailAuthor(details), art, DetailDuration(details))),
                  probed)
  }

  /**
    The fallback URL: the extracted `url` when truthy, else the `url` of the first extracted format.
    An absent `formats` key stands for one empty record (so no URL); an empty list that is present raises `IndexError`.
  */
  function FallbackUrl(info: Info): Reply<Option<string>> {
    if Truthy(info.url) then Returned(info.url)
    else
      var formats := info.formats.GetOr([Format(None, None)]);
      if formats == [] then Raised(INDEX_ERROR_MESSAGE) else Returned(formats[0].url)
  }

  function WatchUrl(videoId: string): string {
    WATCH_PREFIX + videoId
  }

  function FallbackTier(videoId: string, extractInfo: (string, string) -> Reply<Info>, head: string -> Reply<int>): Resolution {
    var extracted := [ExtractInfo(WatchUrl(videoId), FORMAT_PREFERENCE)];
    match extractInfo(WatchUrl(videoId), FORMAT_PREFERENCE)
    case Raised(e) => Resolution(Failed(STATUS_SERVER_ERROR, e), extracted)
    case Returned(info) =>
      match FallbackUrl(info)
      case Raised(e) => Resolution(Failed(STATUS_SERVER_ERROR, e), extracted)
      case Returned(url) =>
        if !Truthy(url) then Resolution(Failed(STATUS_NOT_FOUND, NO_STREAM_MESSAGE), extracted)
        else
          var probed := extracted + [Head(url.value)];
          match head(url.value)
          case Raised(e) => Resolution(Failed(STATUS_SERVER_ERROR, e), probed)
          case Returned(code) =>
            if code != STATUS_OK then Resolution(Failed(STATUS_SERVER_ERROR, NOT_ACCESSIBLE_MESSAGE), probed)
            else
              var duration := if info.duration.Some? then Some(Seconds(info.duration.value)) else None;
              Resolution(
                Found(StreamResult(url.value, info.title.GetOr(UNKNOWN_TITLE), info.uploader.GetOr(UNKNOWN_ARTIST), info.thumbnail, duration)),
                probed)
  }

  /** The whole decision: the id check, then the primary tier, then (when it declines) the fallback. */
  function Resolve(
    id: Option<string>,
    client: Option<string -> Reply<SongData>>,
    extractInfo: (string, string) -> Reply<Info>,
    head: string -> Reply<int>): Resolution
  {
    if !Truthy(id) then Resolution(Failed(STATUS_BAD_REQUEST, NO_ID_MESSAGE), [])
    else
      match PrimaryTier(id.value, client, head)
      case Answered(response, calls) => Resolution(response, calls)
      case Declined(calls) =>
        var fallback := FallbackTier(id.value, extractInfo, head);
        Resolution(fallback.response, calls + fallback.calls)
  }

  /** `get_stream` as written: a sequence of early returns. */
  method GetStream(
    id: Option<string>,
    client: Option<string -> Reply<SongData>>,
    extractInfo: (string, string) -> Reply<Info>,
    head: string -> Reply<int>)
    returns (response: Response, calls: seq<Call>)
    ensures Resolution(response, calls) == Resolve(id, client, extractInfo, head)
  {
    if !Truthy(id) {
      return Failed(STATUS_BAD_REQUEST, NO_ID_MESSAGE), [];
    }
    var videoId := id.value;
    calls := [];
    if client.Some? {
      var reply := client.value(videoId);
      calls := calls + [GetSong(videoId)];
      if reply.Raised? {
        return Failed(STATUS_SERVER_ERROR, reply.message), calls;
      }
      var song := reply.value;
      var audioUrl := SelectAudioUrl(AdaptiveFormats(song));
      if Truthy(audioUrl) {
        var probe := head(audioUrl.value);
        calls := calls + [Head(audioUrl.value)];
        if probe.Raised? {
          return Failed(STATUS_SERVER_ERROR, probe.message), calls;
        }
        if probe.value == STATUS_OK {
          var details := song.videoDetails;
          var art := AlbumArt(details);
          if art.Raised? {
            return Failed(STATUS_SERVER_ERROR, art.message), calls;
          }
          var result := StreamResult(audioUrl.value, DetailTitle(details), DetailAuthor(details), art.value, DetailDuration(details));
          return Found(result), calls;
        }
      }
    }

    // Fallback to the extraction library.
    var pageUrl := WatchUrl(videoId);
    var extracted := extractInfo(pageUrl, FORMAT_PREFERENCE);
    calls := calls + [ExtractInfo(pageUrl, FORMAT_PREFERENCE)];
    if extracted.Raised? {
      return Failed(STATUS_SERVER_ERROR, extracted.message), calls;
    }
    var info := extracted.value;
    var fallbackUrl := FallbackUrl(info);
    if fallbackUrl.Raised? {
      return Failed(STATUS_SERVER_ERROR, fallbackUrl.message), calls;
    }
    var audioUrl := fallbackUrl.value;
    if !Truthy(audioUrl) {
      return Failed(STATUS_NOT_FOUND, NO_STREAM_MESSAGE), calls;
    }
    var probe := head(audioUrl.value);
    calls := calls + [Head(audioUrl.value)];
    if probe.Raised? {
      return Failed(STATUS_SERVER_ERROR, probe.message), calls;
    }
    if probe.value != STATUS_OK {
      return Failed(STATUS_SERVER_ERROR, NOT_ACCESSIBLE_MESSAGE), calls;
    }
    var duration := if info.duration.Some? then Some(Seconds(info.duration.value)) else None;
    response := Found(StreamResult(audioUrl.value, info.title.GetOr(UNKNOWN_TITLE), info.uploader.GetOr(UNKNOWN_ARTIST), info.thumbnail, duration));
  }

  // ---------------------------------------------------------------------------
  // Properties of the decision.

  /** The call trace never asks the catalog twice, and never asks it after the fallback has run. */
  ghost predicate PrimaryNotRetried(calls: seq<Call>) {
    forall i, j :: 0 <= i < |calls| && 0 <= j < |calls| && calls[i].GetSong? && (calls[j].GetSong? || calls[j].ExtractInfo?) ==> i <= j
  }

  ghost predicate FallbackAtMostOnce(calls: seq<Call>) {
    forall i, j :: 0 <= i < |calls| && 0 <= j < |calls| && calls[i].ExtractInfo? && calls[j].ExtractInfo? ==> i == j
  }

  /** The status codes `get_stream` can answer with. */
  lemma StatusCodes(id: Option<string>, client: Option<string -> Reply<SongData>>, extractInfo: (string, string) -> Reply<Info>, head: string -> Reply<int>)
    ensures StatusCode(Resolve(id, client, extractInfo, head).response) in {STATUS_OK, STATUS_BAD_REQUEST, STATUS_NOT_FOUND, STATUS_SERVER_ERROR}
  {
  }

  /** 400 is answered exactly when the id is missing or empty, and then no call is made. */
  lemma BadRequestExactlyWithoutId(id: Option<string>, client: Option<string -> Reply<SongData>>, extractInfo: (string, string) -> Reply<Info>, head: string -> Reply<int>)
    ensures StatusCode(Resolve(id, client, extractInfo, head).response) == STATUS_BAD_REQUEST <==> !Truthy(id)
    ensures !Truthy(id) ==> Resolve(id, client, extractInfo, head) == Resolution(Failed(STATUS_BAD_REQUEST, NO_ID_MESSAGE), [])
  {
  }

  /** A reachable first-match URL from the catalog is answered at once, with the catalog's metadata. */
  lemma PrimaryFirstMatchWins(videoId: string, song: SongData, client: string -> Reply<SongData>, extractInfo: (string, string) -> Reply<Info>, head: string -> Reply<int>, i: nat)
    requires videoId != ""
    requires client(videoId) == Returned(song)
    requires i < |AdaptiveFormats(song)| && IsAudio(AdaptiveFormats(song)[i])
    requires forall j :: 0 <= j < i ==> !IsAudio(AdaptiveFormats(song)[j])
    requires Truthy(AdaptiveFormats(song)[i].url)
    requires head(AdaptiveFormats(song)[i].url.value) == Returned(STATUS_OK)
    requires AlbumArt(song.videoDetails).Returned?
    ensures var url := AdaptiveFormats(song)[i].url.value;
            var details := song.videoDetails;
            var expected := StreamResult(url, DetailTitle(details), DetailAuthor(details), AlbumArt(details).value, DetailDuration(details));
            Resolve(Some(videoId), Some(client), extractInfo, head) == Resolution(Found(expected), [GetSong(videoId), Head(url)])
  {
    var r := FirstAudioIndex(AdaptiveFormats(song));
    assert r == Some(i);
  }

  /** The catalog tier declines exactly when the client is absent, there is no truthy first-match URL, or that URL's probe answers a status other than 200. */
  lemma PrimaryDeclinesExactly(videoId: string, client: Option<string -> Reply<SongData>>, head: string -> Reply<int>)
    ensures PrimaryTier(videoId, client, head).Declined? <==>
      (client.None? ||
       (client.value(videoId).Returned? &&
        var url := PrimaryAudioUrl(AdaptiveFormats(client.value(videoId).value));
        (!Truthy(url) || (head(url.value).Returned? && head(url.value).value != STATUS_OK))))
  {
  }

  /** The album art is the last thumbnail's `url`; a missing key on the way gives none, and a present but empty list raises. */
  lemma AlbumArtChoice(details: Option<VideoDetails>)
    ensures AlbumArt(details).Raised? <==>
            details.Some? && details.value.thumbnail.Some? && details.value.thumbnail.value.thumbnails == Some([])
    ensures details.Some? && details.value.thumbnail.Some? && details.value.thumbnail.value.thumbnails.Some? &&
            details.value.thumbnail.value.thumbnails.value != [] ==>
            var thumbs := details.value.thumbnail.value.thumbnails.value;
            AlbumArt(details) == Returned(thumbs[|thumbs| - 1].url)
    ensures details.None? || details.value.thumbnail.None? || details.value.thumbnail.value.thumbnails.None? ==>
            AlbumArt(details) == Returned(None)
  {
  }

  /** A reachable catalog URL with a present but empty thumbnail list ends in 500 with the `IndexError` message; the fallback is not tried. */
  lemma PrimaryEmptyThumbnailsIsServerError(videoId: string, song: SongData, client: string -> Reply<SongData>, extractInfo: (string, string) -> Reply<Info>, head: string -> Reply<int>)
    requires videoId != "" && client(videoId) == Returned(song)
    requires var url := PrimaryAudioUrl(AdaptiveFormats(song));
             Truthy(url) && head(url.value) == Returned(STATUS_OK)
    requires song.videoDetails.Some? && song.videoDetails.value.thumbnail.Some? &&
             song.videoDetails.value.thumbnail.value.thumbnails == Some([])
    ensures Resolve(Some(videoId), Some(client), extractInfo, head).response == Failed(STATUS_SERVER_ERROR, "list index out of range")
    ensures |Resolve(Some(videoId), Some(client), extractInfo, head).calls| == 2
  {
  }

  /** An exception from the catalog ends the request with 500: the fallback is not tried. */
  lemma PrimaryExceptionIsServerError(videoId: string, client: string -> Reply<SongData>, extractInfo: (string, string) -> Reply<Info>, head: string -> Reply<int>)
    requires videoId != "" && client(videoId).Raised?
    ensures Resolve(Some(videoId), Some(client), extractInfo, head)
         == Resolution(Failed(STATUS_SERVER_ERROR, client(videoId).message), [GetSong(videoId)])
  {
  }

  /** When the catalog tier declines, the fallback runs exactly once after it and the catalog is not asked again. */
  lemma FallbackRunsOnce(id: Option<string>, client: Option<string -> Reply<SongData>>, extractInfo: (string, string) -> Reply<Info>, head: string -> Reply<int>)
    requires Truthy(id) && PrimaryTier(id.value, client, head).Declined?
    ensures var fallback := FallbackTier(id.value, extractInfo, head);
            Resolve(id, client, extractInfo, head)
            == Resolution(fallback.response, PrimaryTier(id.value, client, head).calls + fallback.calls)
    ensures var fallback := FallbackTier(id.value, extractInfo, head);
            fallback.calls[0] == ExtractInfo(WatchUrl(id.value), FORMAT_PREFERENCE) &&
            1 <= |fallback.calls| <= 2 && (|fallback.calls| == 2 ==> fallback.calls[1].Head?)
  {
  }

  /** The catalog tier's calls: at most the catalog query, then one probe. */
  ghost predicate PrimaryCalls(calls: seq<Call>) {
    |calls| <= 2 && (|calls| >= 1 ==> calls[0].GetSong?) && (|calls| == 2 ==> calls[1].Head?)
  }

  /** The fallback's calls: the extraction, then at most one probe. */
  ghost predicate FallbackCalls(calls: seq<Call>) {
    1 <= |calls| <= 2 && calls[0].ExtractInfo? && (|calls| == 2 ==> calls[1].Head?)
  }

  /** Each tier makes its calls in that shape. */
  lemma TierCalls(videoId: string, client: Option<string -> Reply<SongData>>, extractInfo: (string, string) -> Reply<Info>, head: string -> Reply<int>)
    ensures PrimaryCalls(PrimaryTier(videoId, client, head).calls)
    ensures FallbackCalls(FallbackTier(videoId, extractInfo, head).calls)
  {
  }

  /** The catalog tier's calls followed by at most one run of the fallback keep the catalog first and the fallback single. */
  lemma CallsInOrder(primary: seq<Call>, fallback: seq<Call>)
    requires PrimaryCalls(primary) && (fallback == [] || FallbackCalls(fallback))
    ensures PrimaryNotRetried(primary + fallback) && FallbackAtMostOnce(primary + fallback)
  {
  }

  /** Every run asks the catalog at most once, before the fallback, and the fallback at most once. */
  lemma CallDiscipline(id: Option<string>, client: Option<string -> Reply<SongData>>, extractInfo: (string, string) -> Reply<Info>, head: string -> Reply<int>)
    ensures var calls := Resolve(id, client, extractInfo, head).calls;
            |calls| <= 4 && PrimaryNotRetried(calls) && FallbackAtMostOnce(calls)
  {
    if Truthy(id) {
      var primary := PrimaryTier(id.value, client, head);
      TierCalls(id.value, client, extractInfo, head);
      if primary.Answered? {
        CallsInOrder(primary.calls, []);
        assert primary.calls + [] == primary.calls;
      } else {
        CallsInOrder(primary.calls, FallbackTier(id.value, extractInfo, head).calls);
      }
    }
  }

  /** A URL is returned only after its own probe answered exactly 200, as the last call made. */
  lemma FoundUrlWasProbed(id: Option<string>, client: Option<string -> Reply<SongData>>, extractInfo: (string, string) -> Reply<Info>, head: string -> Reply<int>)
    requires Resolve(id, client, extractInfo, head).response.Found?
    ensures var r := Resolve(id, client, extractInfo, head);
            var url := r.response.result.url;
            url != "" && head(url) == Returned(STATUS_OK) && |r.calls| >= 2 && r.calls[|r.calls| - 1] == Head(url)
  {
  }

  /** How the fallback answers: no URL is 404, a probe status other than 200 is 500, and 200 returns the URL with the extracted thumbnail and duration (none when `duration` is absent). */
  lemma FallbackAnswers(videoId: string, extractInfo: (string, string) -> Reply<Info>, head: string -> Reply<int>, info: Info)
    requires extractInfo(WatchUrl(videoId), FORMAT_PREFERENCE) == Returned(info)
    requires FallbackUrl(info).Returned?
    ensures var url := FallbackUrl(info).value;
            var response := FallbackTier(videoId, extractInfo, head).response;
            (!Truthy(url) ==> response == Failed(STATUS_NOT_FOUND, NO_STREAM_MESSAGE)) &&
            (Truthy(url) && head(url.value).Returned? && head(url.value).value != STATUS_OK ==>
               response == Failed(STATUS_SERVER_ERROR, NOT_ACCESSIBLE_MESSAGE)) &&
            (Truthy(url) && head(url.value) == Returned(STATUS_OK) ==>
               response.Found? && response.result.url == url.value && response.result.albumArt == info.thumbnail &&
               response.result.duration == (if info.duration.Some? then Some(Seconds(info.duration.value)) else None))
  {
  }

  /** The fallback URL is `info.url` when truthy, else the first format's `url`; an empty `formats` list raises. */
  lemma FallbackUrlChoice(info: Info)
    ensures Truthy(info.url) ==> FallbackUrl(info) == Returned(info.url)
    ensures !Truthy(info.url) && info.formats.Some? && info.formats.value != [] ==>
              FallbackUrl(info) == Returned(info.formats.value[0].url)
    ensures !Truthy(info.url) && info.formats == None ==> FallbackUrl(info) == Returned(None)
    ensures FallbackUrl(info).Raised? <==> !Truthy(info.url) && info.formats == Some([])
  {
  }

  /** Every 200 answer comes from exactly one tier: the catalog tier's answer, or the fallback's after the catalog tier declined. */
  lemma FoundComesFromOneTier(id: Option<string>, client: Option<string -> Reply<SongData>>, extractInfo: (string, string) -> Reply<Info>, head: string -> Reply<int>)
    requires Resolve(id, client, extractInfo, head).response.Found?
    ensures Truthy(id)
    ensures var primary := PrimaryTier(id.value, client, head);
            var response := Resolve(id, client, extractInfo, head).response;
            (primary.Answered? && primary.response == response) ||
            (primary.Declined? && FallbackTier(id.value, extractInfo, head).response == response)
  {
  }

  /** On the catalog tier, title and artist take their placeholders only when the key is absent; a present value, even an empty one, passes through. */
  lemma PrimaryTitleArtistDefaults(videoId: string, client: Option<string -> Reply<SongData>>, head: string -> Reply<int>)
    requires PrimaryTier(videoId, client, head).Answered? && PrimaryTier(videoId, client, head).response.Found?
    ensures client.Some? && client.value(videoId).Returned?
    ensures var r := PrimaryTier(videoId, client, head).response.result;
            var details := client.value(videoId).value.videoDetails;
            (details.Some? && details.value.title.Some? ==> r.title == details.value.title.value) &&
            (details.None? || details.value.title.None? ==> r.title == UNKNOWN_TITLE) &&
            (details.Some? && details.value.author.Some? ==> r.artist == details.value.author.value) &&
            (details.None? || details.value.author.None? ==> r.artist == UNKNOWN_ARTIST)
  {
  }

  /** On the fallback, title and artist take their placeholders only when `title` or `uploader` is absent; a present value, even an empty one, passes through. */
  lemma FallbackTitleArtistDefaults(videoId: string, extractInfo: (string, string) -> Reply<Info>, head: string -> Reply<int>)
    requires FallbackTier(videoId, extractInfo, head).response.Found?
    ensures extractInfo(WatchUrl(videoId), FORMAT_PREFERENCE).Returned?
    ensures var r := FallbackTier(videoId, extractInfo, head).response.result;
            var info := extractInfo(WatchUrl(videoId), FORMAT_PREFERENCE).value;
            (info.title.Some? ==> r.title == info.title.value) &&
            (info.title.None? ==> r.title == UNKNOWN_TITLE) &&
            (info.uploader.Some? ==> r.artist == info.uploader.value) &&
            (info.uploader.None? ==> r.artist == UNKNOWN_ARTIST)
  {
  }
}
