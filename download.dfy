/**
  The download endpoint `GET /download_song/?id=..&title=..&artist=..` (main/views.py, `download_song`):
  the filename sanitiser, the `"<title> - <artist>.mp3"` filename, and the order of its checks.

  Python's `str.isalnum` is Unicode-aware; it is a parameter `isAlnum` here, and the properties below
  hold whatever that predicate is, with two exceptions that say what they assume of it: the example
  lemma `FilenameExample` assumes it agrees with ASCII letters and digits on ASCII characters, and
  `DispositionQuotesFilename` assumes it rejects the double quote, as `str.isalnum` does for both.
*/
module Download {
  import opened Wrappers
  import opened Common
  import StreamResolver

  const SEPARATOR := " - "
  const EXTENSION := ".mp3"
  const NO_ID_MESSAGE := "No video ID provided!"
  const STREAM_ERROR_MESSAGE := "Error fetching stream URL!"
  const AUDIO_ERROR_MESSAGE := "Error downloading audio!"
  const AUDIO_CONTENT_TYPE := "audio/mp3"
  const DISPOSITION_PREFIX := "attachment; filename=\""
  const QUOTE := '"'

  /** A character the sanitiser keeps: alphanumeric, space, hyphen or underscore. */
  predicate Allowed(isAlnum: char -> bool, c: char) {
    isAlnum(c) || c == ' ' || c == '-' || c == '_'
  }

  /** The allowed characters of `s`, in their original order (the generator join). */
  function Keep(isAlnum: char -> bool, s: string): string {
    if s == [] then []
    else (if Allowed(isAlnum, s[0]) then [s[0]] else []) + Keep(isAlnum, s[1..])
  }

  /**
    `rstrip()` on the kept characters. Of the characters `Allowed` lets through only the space is
    whitespace (Python's whitespace characters are not alphanumeric), so removing trailing spaces is
    the whole of it here.
  */
  function TrimTrailingSpaces(s: string): (r: string)
    ensures |r| <= |s| && r == s[..|r|]
    ensures r == [] || r[|r| - 1] != ' '
    ensures forall k :: |r| <= k < |s| ==> s[k] == ' '
  {
    if s == [] || s[|s| - 1] != ' ' then s else TrimTrailingSpaces(s[..|s| - 1])
  }

  function Sanitize(isAlnum: char -> bool, s: string): string {
    TrimTrailingSpaces(Keep(isAlnum, s))
  }

  /** The attachment name `"<sanitised title> - <sanitised artist>.mp3"`. */
  function Filename(isAlnum: char -> bool, title: string, artist: string): string {
    Sanitize(isAlnum, title) + SEPARATOR + Sanitize(isAlnum, artist) + EXTENSION
  }

  /** The `Content-Disposition` header naming the attachment: the filename between double quotes. */
  function ContentDisposition(filename: string): string {
    DISPOSITION_PREFIX + filename + [QUOTE]
  }

  /** `a` is a subsequence of `b`: its characters occur in `b` in the same order. */
  predicate IsSubsequence(a: string, b: string)
    decreases |b|
  {
    a == [] || (b != [] && if a[0] == b[0] then IsSubsequence(a[1..], b[1..]) else IsSubsequence(a, b[1..]))
  }

  // ---------------------------------------------------------------------------
  // Properties of the sanitiser.

  lemma {:induction false} PrefixOfSubsequence(a: string, b: string, n: nat)
    requires IsSubsequence(a, b) && n <= |a|
    ensures IsSubsequence(a[..n], b)
    decreases |b|
  {
    if a == [] || n == 0 {
      assert a[..n] == [];
    } else if a[0] == b[0] {
      PrefixOfSubsequence(a[1..], b[1..], n - 1);
      assert a[..n][1..] == a[1..][..n - 1];
    } else {
      PrefixOfSubsequence(a, b[1..], n);
    }
  }

  /** The kept characters are a subsequence of the input. */
  lemma {:induction false} KeepIsSubsequence(isAlnum: char -> bool, s: string)
    ensures IsSubsequence(Keep(isAlnum, s), s)
  {
    if s != [] {
      KeepIsSubsequence(isAlnum, s[1..]);
      var rest := Keep(isAlnum, s[1..]);
      KeepOnlyAllowed(isAlnum, s[1..]);
      if Allowed(isAlnum, s[0]) {
        assert Keep(isAlnum, s) == [s[0]] + rest;
        assert Keep(isAlnum, s)[1..] == rest;
      } else {
        assert Keep(isAlnum, s) == rest;
        assert rest != [] ==> Allowed(isAlnum, rest[0]) && rest[0] != s[0];
      }
    }
  }

  /** Filtering distributes over concatenation, so it is determined by what it does to one character. */
  lemma {:induction false} KeepAppend(isAlnum: char -> bool, s: string, t: string)
    ensures Keep(isAlnum, s + t) == Keep(isAlnum, s) + Keep(isAlnum, t)
  {
    if s == [] {
      assert s + t == t;
    } else {
      var u := s + t;
      assert u[0] == s[0] && u[1..] == s[1..] + t;
      var head := if Allowed(isAlnum, s[0]) then [s[0]] else [];
      assert Keep(isAlnum, u) == head + Keep(isAlnum, s[1..] + t);
      KeepAppend(isAlnum, s[1..], t);
      assert Keep(isAlnum, s) == head + Keep(isAlnum, s[1..]);
    }
  }

  /** Every allowed character is kept as often as it occurs, and no other character is kept. */
  lemma {:induction false} KeepCounts(isAlnum: char -> bool, s: string, c: char)
    ensures multiset(Keep(isAlnum, s))[c] == if Allowed(isAlnum, c) then multiset(s)[c] else 0
  {
    if s != [] {
      KeepCounts(isAlnum, s[1..], c);
      assert s == [s[0]] + s[1..];
    }
  }

  /** The filter's output holds only allowed characters, and is no longer than its input. */
  lemma {:induction false} KeepOnlyAllowed(isAlnum: char -> bool, s: string)
    ensures var r := Keep(isAlnum, s);
            |r| <= |s| && forall k :: 0 <= k < |r| ==> Allowed(isAlnum, r[k])
  {
    if s != [] {
      KeepOnlyAllowed(isAlnum, s[1..]);
    }
  }

  /** A string made only of allowed characters passes the filter unchanged. */
  lemma {:induction false} KeepAllAllowed(isAlnum: char -> bool, s: string)
    requires forall k :: 0 <= k < |s| ==> Allowed(isAlnum, s[k])
    ensures Keep(isAlnum, s) == s
  {
    if s != [] {
      KeepAllAllowed(isAlnum, s[1..]);
    }
  }

  /** A sanitised name holds only allowed characters and does not end in a space. */
  lemma SanitizedCharacters(isAlnum: char -> bool, s: string)
    ensures var r := Sanitize(isAlnum, s);
            (forall k :: 0 <= k < |r| ==> Allowed(isAlnum, r[k])) && (r == [] || r[|r| - 1] != ' ')
  {
    var kept := Keep(isAlnum, s);
    var r := TrimTrailingSpaces(kept);
    KeepOnlyAllowed(isAlnum, s);
    forall k | 0 <= k < |r| ensures Allowed(isAlnum, r[k]) {
      assert r[k] == kept[k];
    }
  }

  /** The sanitised name keeps the kept characters in their original order, followed in the filter's output only by spaces. */
  lemma SanitizeKeepsOrder(isAlnum: char -> bool, s: string)
    ensures IsSubsequence(Sanitize(isAlnum, s), s)
    ensures var kept := Keep(isAlnum, s);
            var r := Sanitize(isAlnum, s);
            kept[..|r|] == r && forall k :: |r| <= k < |kept| ==> kept[k] == ' '
  {
    var kept := Keep(isAlnum, s);
    KeepIsSubsequence(isAlnum, s);
    PrefixOfSubsequence(kept, s, |Sanitize(isAlnum, s)|);
  }

  /** Sanitising twice is sanitising once. */
  lemma SanitizeIdempotent(isAlnum: char -> bool, s: string)
    ensures Sanitize(isAlnum, Sanitize(isAlnum, s)) == Sanitize(isAlnum, s)
  {
    var r := Sanitize(isAlnum, s);
    SanitizedCharacters(isAlnum, s);
    KeepAllAllowed(isAlnum, r);
  }

  // ---------------------------------------------------------------------------
  // The worked example.

  predicate AsciiAlnum(c: char) {
    ('a' <= c <= 'z') || ('A' <= c <= 'Z') || ('0' <= c <= '9')
  }

  /** `isAlnum` answers as ASCII letters and digits do on the ASCII range. */
  ghost predicate AgreesOnAscii(isAlnum: char -> bool) {
    forall c: char :: c as int < 128 ==> (isAlnum(c) <==> AsciiAlnum(c))
  }

  /** One step of the filter, at position `i`. */
  lemma KeepAt(isAlnum: char -> bool, s: string, i: nat)
    requires i < |s|
    ensures Keep(isAlnum, s[i..]) == (if Allowed(isAlnum, s[i]) then [s[i]] else []) + Keep(isAlnum, s[i + 1..])
  {
    assert s[i..][1..] == s[i + 1..];
  }

  /** The filter on the example title `"Song: Name?"`, given character by character. */
  lemma KeepExampleTitle(isAlnum: char -> bool, s: string)
    requires isAlnum('S') && isAlnum('o') && isAlnum('n') && isAlnum('g') && isAlnum('N') && isAlnum('a') && isAlnum('m') && isAlnum('e') && !isAlnum(':') && !isAlnum('?')
    requires |s| == 11 && s[0] == 'S' && s[1] == 'o' && s[2] == 'n' && s[3] == 'g' && s[4] == ':' && s[5] == ' ' && s[6] == 'N' && s[7] == 'a' && s[8] == 'm' && s[9] == 'e' && s[10] == '?'
    ensures Keep(isAlnum, s) == "Song Name"
  {
    assert s[11..] == [];
    KeepAt(isAlnum, s, 10);
    KeepAt(isAlnum, s, 9);
    KeepAt(isAlnum, s, 8);
    KeepAt(isAlnum, s, 7);
    KeepAt(isAlnum, s, 6);
    KeepAt(isAlnum, s, 5);
    KeepAt(isAlnum, s, 4);
    KeepAt(isAlnum, s, 3);
    KeepAt(isAlnum, s, 2);
    KeepAt(isAlnum, s, 1);
    KeepAt(isAlnum, s, 0);
    assert s[0..] == s;
  }

  /** The filter on the example artist `"Art/ist"`, given character by character. */
  lemma KeepExampleArtist(isAlnum: char -> bool, s: string)
    requires isAlnum('A') && isAlnum('r') && isAlnum('t') && isAlnum('i') && isAlnum('s') && !isAlnum('/')
    requires |s| == 7 && s[0] == 'A' && s[1] == 'r' && s[2] == 't' && s[3] == '/' && s[4] == 'i' && s[5] == 's' && s[6] == 't'
    ensures Keep(isAlnum, s) == "Artist"
  {
    assert s[7..] == [];
    KeepAt(isAlnum, s, 6);
    KeepAt(isAlnum, s, 5);
    KeepAt(isAlnum, s, 4);
    KeepAt(isAlnum, s, 3);
    KeepAt(isAlnum, s, 2);
    KeepAt(isAlnum, s, 1);
    KeepAt(isAlnum, s, 0);
    assert s[0..] == s;
  }

  /** The filename, given what the filter keeps of the title and the artist. */
  lemma FilenameOfKept(isAlnum: char -> bool, title: string, artist: string)
    requires Keep(isAlnum, title) == "Song Name" && Keep(isAlnum, artist) == "Artist"
    ensures Filename(isAlnum, title, artist) == "Song Name - Artist.mp3"
  {
    var kept := Keep(isAlnum, title);
    assert kept[|kept| - 1] == 'e';
    assert Keep(isAlnum, artist)[|Keep(isAlnum, artist)| - 1] == 't';
  }

  /** What agreeing with ASCII says about the characters of the example. */
  lemma ExampleCharacters(isAlnum: char -> bool)
    requires AgreesOnAscii(isAlnum)
    ensures isAlnum('S') && isAlnum('o') && isAlnum('n') && isAlnum('g')
    ensures isAlnum('N') && isAlnum('a') && isAlnum('m') && isAlnum('e')
    ensures isAlnum('A') && isAlnum('r') && isAlnum('t') && isAlnum('i') && isAlnum('s')
    ensures !isAlnum(':') && !isAlnum('?') && !isAlnum('/')
  {
    assert AsciiAlnum('S') && AsciiAlnum('o') && AsciiAlnum('n') && AsciiAlnum('g');
    assert AsciiAlnum('N') && AsciiAlnum('a') && AsciiAlnum('m') && AsciiAlnum('e');
    assert AsciiAlnum('A') && AsciiAlnum('r') && AsciiAlnum('t') && AsciiAlnum('i') && AsciiAlnum('s');
  }

  /** The example: title `"Song: Name?"` and artist `"Art/ist"` give `"Song Name - Artist.mp3"`. */
  lemma FilenameExample(isAlnum: char -> bool)
    requires AgreesOnAscii(isAlnum)
    ensures Filename(isAlnum, "Song: Name?", "Art/ist") == "Song Name - Artist.mp3"
  {
    ExampleCharacters(isAlnum);
    assert Keep(isAlnum, "Song: Name?") == "Song Name" by {
      KeepExampleTitle(isAlnum, "Song: Name?");
    }
    assert Keep(isAlnum, "Art/ist") == "Artist" by {
      KeepExampleArtist(isAlnum, "Art/ist");
    }
    FilenameOfKept(isAlnum, "Song: Name?", "Art/ist");
  }

  // ---------------------------------------------------------------------------
  // The endpoint.

  /** An audio attachment read from `streamUrl`, with its content type and `Content-Disposition` header naming `filename`; or a refusal with its status and text. */
  datatype DownloadResponse =
    | Attachment(streamUrl: string, filename: string, contentType: string, disposition: string)
    | Refused(status: int, message: string)

  /**
    `download_song`. `stream` is what the loopback request to the stream endpoint answered, and
    `audioStatus` is the status of the request for the audio itself.
  */
  function DownloadSong(
    isAlnum: char -> bool,
    id: Option<string>,
    title: Option<string>,
    artist: Option<string>,
    stream: StreamResolver.Response,
    audioStatus: string -> int): DownloadResponse
  {
    if !Truthy(id) then Refused(STATUS_BAD_REQUEST, NO_ID_MESSAGE)
    else if StreamResolver.StatusCode(stream) != STATUS_OK || !stream.Found? then
      Refused(STATUS_SERVER_ERROR, STREAM_ERROR_MESSAGE)
    else if audioStatus(stream.result.url) != STATUS_OK then
      Refused(STATUS_SERVER_ERROR, AUDIO_ERROR_MESSAGE)
    else
      var filename := Filename(isAlnum, title.GetOr(UNKNOWN_TITLE), artist.GetOr(UNKNOWN_ARTIST));
      Attachment(stream.result.url, filename, AUDIO_CONTENT_TYPE, ContentDisposition(filename))
  }

  /** Which checks refuse a download, and what an accepted one is named and served as. */
  lemma DownloadOutcomes(
    isAlnum: char -> bool, id: Option<string>, title: Option<string>, artist: Option<string>,
    stream: StreamResolver.Response, audioStatus: string -> int)
    ensures var d := DownloadSong(isAlnum, id, title, artist, stream, audioStatus);
            (d.Refused? && d.status == STATUS_BAD_REQUEST <==> !Truthy(id)) &&
            (!Truthy(id) ==> d == Refused(STATUS_BAD_REQUEST, NO_ID_MESSAGE)) &&
            (Truthy(id) && stream.Failed? ==> d == Refused(STATUS_SERVER_ERROR, STREAM_ERROR_MESSAGE)) &&
            (Truthy(id) && stream.Found? && audioStatus(stream.result.url) != STATUS_OK ==>
               d == Refused(STATUS_SERVER_ERROR, AUDIO_ERROR_MESSAGE)) &&
            (d.Attachment? <==> Truthy(id) && stream.Found? && audioStatus(stream.result.url) == STATUS_OK)
    ensures var d := DownloadSong(isAlnum, id, title, artist, stream, audioStatus);
            d.Attachment? ==>
              d.streamUrl == stream.result.url &&
              d.filename == Sanitize(isAlnum, if title.Some? then title.value else UNKNOWN_TITLE) + SEPARATOR
                          + Sanitize(isAlnum, if artist.Some? then artist.value else UNKNOWN_ARTIST) + EXTENSION &&
              d.contentType == AUDIO_CONTENT_TYPE &&
              d.disposition == ContentDisposition(d.filename)
  {
  }

  /**
    When `isAlnum` rejects the double quote, as `str.isalnum` does, the filename holds no double quote,
    so the header's quoted string ends at its last character and the text between its last two quotes
    is exactly the filename.
  */
  lemma DispositionQuotesFilename(isAlnum: char -> bool, title: string, artist: string)
    requires !isAlnum(QUOTE)
    ensures var name := Filename(isAlnum, title, artist);
            var header := ContentDisposition(name);
            QUOTE !in name &&
            |header| == |DISPOSITION_PREFIX| + |name| + 1 &&
            header[|header| - 1] == QUOTE && header[|header| - 2 - |name|] == QUOTE &&
            header[|header| - 1 - |name|..|header| - 1] == name
  {
    var t := Sanitize(isAlnum, title);
    var a := Sanitize(isAlnum, artist);
    SanitizedCharacters(isAlnum, title);
    SanitizedCharacters(isAlnum, artist);
    var name := Filename(isAlnum, title, artist);
    assert name == t + SEPARATOR + a + EXTENSION;
    assert QUOTE !in t;
    assert QUOTE !in a;
    assert QUOTE !in name;
    var header := ContentDisposition(name);
    assert header[|DISPOSITION_PREFIX| - 1] == QUOTE;
    assert header[|DISPOSITION_PREFIX|..|header| - 1] == name;
  }
}
