/** YouTube helpers: the start-anchored URL pattern, the video-ID search, and the transcript
    fetch with its error messages. The transcript service is supplied as a function. */
module YouTube {
  import opened Wrappers
  import opened Text

  /** The argument of `is_youtube_url`, which Python does not restrict to strings. */
  datatype PyArg = PyStr(s: string) | PyOther

  // The alternatives of `(https?://)?(www\.)?(youtube|youtu|youtube-nocookie)\.(com|be)/`.
  const Schemes: seq<string> := ["", "http://", "https://"]
  const Subdomains: seq<string> := ["", "www."]
  const HostNames: seq<string> := ["youtube", "youtu", "youtube-nocookie"]
  const Domains: seq<string> := ["com", "be"]

  function Head(scheme: string, sub: string, name: string, domain: string): string {
    scheme + sub + name + "." + domain + "/"
  }

  /** The character class `[^&=%\?]`. */
  predicate IdChar(c: char) {
    c != '&' && c != '=' && c != '%' && c != '?'
  }

  /** `[^&=%\?]{11}` matches at index `k` of `t`. */
  predicate IdAt(t: string, k: nat) {
    k + 11 <= |t| && forall i :: k <= i < k + 11 ==> IdChar(t[i])
  }

  /** `.+\?v=` matches `t[..j + 3]`: at least one character other than a newline (what `.`
      matches), then "?v=" starting at `j`. */
  predicate QueryMarkerAt(t: string, j: nat) {
    1 <= j && j + 3 <= |t| && t[j..j + 3] == "?v=" && forall i :: 0 <= i < j ==> t[i] != '\n'
  }

  /** `(watch\?v=|embed/|v/|.+\?v=)?([^&=%\?]{11})` matches at the start of `t`, trying every
      alternative as the regex engine's backtracking does. */
  predicate TailMatches(t: string) {
    || IdAt(t, 0)
    || (StartsWith(t, "watch?v=") && IdAt(t, 8))
    || (StartsWith(t, "embed/") && IdAt(t, 6))
    || (StartsWith(t, "v/") && IdAt(t, 2))
    || exists j | 1 <= j <= |t| - 3 :: QueryMarkerAt(t, j) && IdAt(t, j + 3)
  }

  /** `is_youtube_url`: false for a non-string; otherwise `re.match` of the pattern, which is
      anchored at the start only, so anything may follow the eleven ID characters. */
  predicate IsYouTubeUrl(url: PyArg) {
    match url
    case PyOther => false
    case PyStr(s) =>
      exists scheme, sub, name, domain
        | scheme in Schemes && sub in Subdomains && name in HostNames && domain in Domains
        :: MatchesAfter(s, Head(scheme, sub, name, domain))
  }

  /** `s` starts with the host part `h`, and the rest of the pattern matches what follows it. */
  predicate MatchesAfter(s: string, h: string) {
    StartsWith(s, h) && TailMatches(s[|h|..])
  }

  lemma TailMatchesExtends(t: string, u: string)
    requires TailMatches(t)
    ensures TailMatches(t + u)
  {
    var tu := t + u;
    assert forall i :: 0 <= i < |t| ==> tu[i] == t[i];
    if !IdAt(t, 0) && !(StartsWith(t, "watch?v=") && IdAt(t, 8))
       && !(StartsWith(t, "embed/") && IdAt(t, 6)) && !(StartsWith(t, "v/") && IdAt(t, 2)) {
      var j :| 1 <= j <= |t| - 3 && QueryMarkerAt(t, j) && IdAt(t, j + 3);
      assert tu[j..j + 3] == t[j..j + 3];
      assert QueryMarkerAt(tu, j) && IdAt(tu, j + 3);
    } else if StartsWith(t, "watch?v=") && IdAt(t, 8) {
      assert tu[..8] == t[..8];
    } else if StartsWith(t, "embed/") && IdAt(t, 6) {
      assert tu[..6] == t[..6];
    } else if StartsWith(t, "v/") && IdAt(t, 2) {
      assert tu[..2] == t[..2];
    }
  }

  /** Text appended after a matching URL leaves the host part and the match after it alone. */
  lemma MatchesAfterExtends(s: string, h: string, rest: string)
    requires MatchesAfter(s, h)
    ensures MatchesAfter(s + rest, h)
  {
    TailMatchesExtends(s[|h|..], rest);
    assert (s + rest)[..|h|] == s[..|h|];
    assert (s + rest)[|h|..] == s[|h|..] + rest;
  }

  /** The match is anchored at the start only: whatever follows an accepted URL is ignored. */
  lemma TrailingTextAllowed(s: string, rest: string)
    requires IsYouTubeUrl(PyStr(s))
    ensures IsYouTubeUrl(PyStr(s + rest))
  {
    var scheme, sub, name, domain :|
      scheme in Schemes && sub in Subdomains && name in HostNames && domain in Domains
      && MatchesAfter(s, Head(scheme, sub, name, domain));
    MatchesAfterExtends(s, Head(scheme, sub, name, domain), rest);
  }

  /** Every accepted URL is at least 20 characters long ("youtu.be/" and an 11-character ID)
      and starts with 'h' (a scheme), 'w' ("www.") or 'y' (the host name). */
  lemma AcceptedUrlShape(s: string)
    requires IsYouTubeUrl(PyStr(s))
    ensures |s| >= 20
    ensures s[0] == 'h' || s[0] == 'w' || s[0] == 'y'
  {
    var scheme, sub, name, domain :|
      scheme in Schemes && sub in Subdomains && name in HostNames && domain in Domains
      && MatchesAfter(s, Head(scheme, sub, name, domain));
    var h := Head(scheme, sub, name, domain);
    assert |h| >= 9;
    assert s[0] == h[0];
  }

  /** A non-string argument is never a YouTube URL. */
  lemma NonStringRejected(url: PyArg)
    requires !url.PyStr?
    ensures !IsYouTubeUrl(url)
  {
  }

  /** A host part from the four lists followed by a matching tail is accepted. */
  lemma HostThenTail(scheme: string, sub: string, name: string, domain: string, t: string)
    requires scheme in Schemes && sub in Subdomains && name in HostNames && domain in Domains
    requires TailMatches(t)
    ensures IsYouTubeUrl(PyStr(Head(scheme, sub, name, domain) + t))
  {
    var h := Head(scheme, sub, name, domain);
    assert (h + t)[..|h|] == h;
    assert (h + t)[|h|..] == t;
    assert MatchesAfter(h + t, h);
  }

  /** A common watch URL is accepted. */
  lemma WatchUrlAccepted()
    ensures IsYouTubeUrl(PyStr(Head("https://", "www.", "youtube", "com") + "watch?v=dQw4w9WgXcQ"))
  {
    var t := "watch?v=dQw4w9WgXcQ";
    assert t[..8] == "watch?v=";
    assert IdAt(t, 8);
    assert Schemes[2] == "https://" && Subdomains[1] == "www." && HostNames[0] == "youtube" && Domains[0] == "com";
    HostThenTail("https://", "www.", "youtube", "com", t);
  }

  // ---------------------------------------------------------------------------------------
  // Video-ID extraction

  /** A match of `(?<=marker)[^&#]+` can begin at index `q`: `marker` ends just before `q`, and
      `url[q]` is neither '&' nor '#'. */
  predicate RunStartsAt(url: string, marker: string, q: int) {
    |marker| <= q < |url| && url[q - |marker|..q] == marker && url[q] != '&' && url[q] != '#'
  }

  /** The leftmost index from `from` on where a match can begin. */
  function FirstRunStart(url: string, marker: string, from: nat): (r: Option<nat>)
    decreases |url| - from
    ensures r.Some? ==> from <= r.value && RunStartsAt(url, marker, r.value)
    ensures r.Some? ==> forall q :: from <= q < r.value ==> !RunStartsAt(url, marker, q)
    ensures r.None? ==> forall q :: from <= q ==> !RunStartsAt(url, marker, q)
  {
    if from >= |url| then None
    else if RunStartsAt(url, marker, from) then Some(from)
    else FirstRunStart(url, marker, from + 1)
  }

  /** Where the greedy `[^&#]+` that starts at `q` stops: the end of `url` or the next '&' or '#'. */
  function RunEnd(url: string, q: nat): (e: nat)
    requires q <= |url|
    decreases |url| - q
    ensures q <= e <= |url|
    ensures forall i :: q <= i < e ==> url[i] != '&' && url[i] != '#'
    ensures e == |url| || url[e] == '&' || url[e] == '#'
  {
    if q == |url| || url[q] == '&' || url[q] == '#' then q else RunEnd(url, q + 1)
  }

  /** `re.search(r'(?<=marker)[^&#]+', url)`: the leftmost match, as long as it can be. */
  function Search(url: string, marker: string): (r: Option<string>)
    ensures r.Some? <==> exists q :: RunStartsAt(url, marker, q)
    ensures r.Some? ==> exists q :: RunStartsAt(url, marker, q) && OccursAt(r.value, url, q)
                                    && (forall p :: p < q ==> !RunStartsAt(url, marker, p))
                                    && (q + |r.value| == |url| || url[q + |r.value|] == '&' || url[q + |r.value|] == '#')
    ensures r.Some? ==> r.value != [] && forall i :: 0 <= i < |r.value| ==> r.value[i] != '&' && r.value[i] != '#'
  {
    match FirstRunStart(url, marker, 0)
    case None => None
    case Some(q) => Some(url[q..RunEnd(url, q)])
  }

  /** The ID search of `get_youtube_transcript`: after "v=", else after "be/", else after
      "embed/". */
  function ExtractVideoId(url: string): (r: Option<string>)
    ensures r.None? <==> forall q :: !RunStartsAt(url, "v=", q) && !RunStartsAt(url, "be/", q) && !RunStartsAt(url, "embed/", q)
    ensures r.Some? ==> r.value != [] && Substring(r.value, url)
    ensures r.Some? ==> forall i :: 0 <= i < |r.value| ==> r.value[i] != '&' && r.value[i] != '#'
  {
    match Search(url, "v=")
    case Some(id) => Some(id)
    case None =>
      match Search(url, "be/")
      case Some(id) => Some(id)
      case None => Search(url, "embed/")
  }

  /** "v=" wins whenever it occurs anywhere, then "be/": a later marker is consulted only when
      every earlier one has no match. */
  lemma MarkerPriority(url: string)
    ensures (exists q :: RunStartsAt(url, "v=", q)) ==> ExtractVideoId(url) == Search(url, "v=")
    ensures (forall q :: !RunStartsAt(url, "v=", q)) && (exists q :: RunStartsAt(url, "be/", q))
            ==> ExtractVideoId(url) == Search(url, "be/")
    ensures (forall q :: !RunStartsAt(url, "v=", q) && !RunStartsAt(url, "be/", q))
            ==> ExtractVideoId(url) == Search(url, "embed/")
  {
  }

  // ---------------------------------------------------------------------------------------
  // Transcript

  /** What `YouTubeTranscriptApi.get_transcript` does for a video ID: the texts of its segments
      in order, or one of the exceptions the source tells apart. */
  datatype TranscriptFetch =
    | Segments(texts: seq<string>)
    | NoTranscriptFound
    | TranscriptsDisabled
    | Failed(message: string)  // any other exception, as `str(e)`

  const InvalidUrlMessage: string := "Invalid YouTube URL: Could not extract video ID."

  /** The text of a fetch error before the video ID. */
  function FetchErrorLead(failure: TranscriptFetch): string {
    match failure
    case NoTranscriptFound => "Could not retrieve a transcript for the video with ID: "
    case TranscriptsDisabled => "Transcripts are disabled for the video with ID: "
    case _ => "An unexpected error occurred while fetching the transcript for video ID "
  }

  /** The text of a fetch error after the video ID. */
  function FetchErrorTrail(failure: TranscriptFetch): string
    requires !failure.Segments?
  {
    match failure
    case NoTranscriptFound =>
      ". Transcripts may be disabled for this video or it might not have a transcript in the default language."
    case TranscriptsDisabled => "."
    case Failed(e) => ": " + e
  }

  /** The message for a failed fetch of the transcript of video `id`. */
  function FetchError(id: string, failure: TranscriptFetch): string
    requires !failure.Segments?
  {
    FetchErrorLead(failure) + id + FetchErrorTrail(failure)
  }

  /** `get_youtube_transcript`: the segment texts joined by single spaces, or an error message. */
  function GetYouTubeTranscript(url: string, fetch: string -> TranscriptFetch): (r: Result<string>)
    ensures ExtractVideoId(url).None? ==> r == Err(InvalidUrlMessage)
    ensures ExtractVideoId(url).Some? ==>
      var id := ExtractVideoId(url).value;
      && (r.Ok? <==> fetch(id).Segments?)
      && (r.Ok? ==> r.value == Join(fetch(id).texts, " "))
      && (r.Err? ==> r.message == FetchError(id, fetch(id)) && Substring(id, r.message))
  {
    match ExtractVideoId(url)
    case None => Err(InvalidUrlMessage)
    case Some(id) =>
      var f := fetch(id);
      if f.Segments? then Ok(Join(f.texts, " "))
      else
        FetchErrorNamesId(id, f);
        Err(FetchError(id, f))
  }

  /** Every fetch error names the video ID, right after its lead text. */
  lemma FetchErrorNamesId(id: string, failure: TranscriptFetch)
    requires !failure.Segments?
    ensures OccursAt(id, FetchError(id, failure), |FetchErrorLead(failure)|)
  {
    OccursInMiddle(FetchErrorLead(failure), id, FetchErrorTrail(failure));
  }

  /** An unusable URL is refused before the transcript service is consulted: the result is the
      same whatever that service would do. */
  lemma InvalidUrlNeverFetches(url: string, f1: string -> TranscriptFetch, f2: string -> TranscriptFetch)
    requires ExtractVideoId(url).None?
    ensures GetYouTubeTranscript(url, f1) == GetYouTubeTranscript(url, f2) == Err(InvalidUrlMessage)
  {
  }

  function TotalLength(parts: seq<string>): nat {
    if |parts| == 0 then 0 else |parts[0]| + TotalLength(parts[1..])
  }

  /** Joining adds exactly one separator between neighbours. */
  lemma {:induction false} JoinLength(parts: seq<string>, sep: string)
    requires |parts| >= 1
    ensures |Join(parts, sep)| == TotalLength(parts) + (|parts| - 1) * |sep|
  {
    if |parts| > 1 {
      JoinLength(parts[1..], sep);
    }
  }

  /** A join splits at any inner index into the join of the parts before it, one separator, and
      the join of the parts from it on. */
  lemma {:induction false} JoinSplit(parts: seq<string>, sep: string, i: int)
    requires 0 < i < |parts|
    ensures Join(parts, sep) == Join(parts[..i], sep) + sep + Join(parts[i..], sep)
  {
    if i > 1 {
      JoinSplit(parts[1..], sep, i - 1);
      assert parts[1..][..i - 1] == parts[..i][1..];
      assert parts[1..][i - 1..] == parts[i..];
    } else {
      assert parts[..1] == [parts[0]];
    }
  }

  /** The part at index `i` of a join stands between the join of the earlier parts and a
      separator, and the join of the later parts after another separator. */
  lemma JoinPlaces(parts: seq<string>, sep: string, i: int)
    requires 0 <= i < |parts|
    ensures Join(parts, sep) ==
      (if i == 0 then "" else Join(parts[..i], sep) + sep) + parts[i]
      + (if i == |parts| - 1 then "" else sep + Join(parts[i + 1..], sep))
  {
    if i > 0 {
      JoinSplit(parts, sep, i);
    }
    assert |parts[i..]| > 1 ==> parts[i..][1..] == parts[i + 1..];
  }

  /** Segment `i` of a space-joined transcript starts after the earlier segments and one space
      each, and a space follows it unless it is the last. */
  lemma SegmentAt(texts: seq<string>, i: int)
    requires 0 <= i < |texts|
    ensures OccursAt(texts[i], Join(texts, " "), TotalLength(texts[..i]) + i)
    ensures i < |texts| - 1 ==>
      OccursAt(" ", Join(texts, " "), TotalLength(texts[..i]) + i + |texts[i]|)
  {
    JoinPlaces(texts, " ", i);
    var before := if i == 0 then "" else Join(texts[..i], " ") + " ";
    var after := if i == |texts| - 1 then "" else " " + Join(texts[i + 1..], " ");
    assert |before| == TotalLength(texts[..i]) + i by {
      if i > 0 {
        JoinLength(texts[..i], " ");
      }
    }
    OccursInMiddle(before, texts[i], after);
    if i < |texts| - 1 {
      OccursInMiddle(before + texts[i], " ", Join(texts[i + 1..], " "));
    }
  }

  /** Every segment of a space-joined transcript is in its place: segment `i` starts after the
      earlier segments and their `i` spaces, and a space follows every segment but the last. */
  lemma SegmentsInPlace(texts: seq<string>)
    ensures forall i :: 0 <= i < |texts| ==>
      OccursAt(texts[i], Join(texts, " "), TotalLength(texts[..i]) + i)
      && (i < |texts| - 1 ==> OccursAt(" ", Join(texts, " "), TotalLength(texts[..i]) + i + |texts[i]|))
  {
    forall i | 0 <= i < |texts|
      ensures OccursAt(texts[i], Join(texts, " "), TotalLength(texts[..i]) + i)
      ensures i < |texts| - 1 ==>
        OccursAt(" ", Join(texts, " "), TotalLength(texts[..i]) + i + |texts[i]|)
    {
      SegmentAt(texts, i);
    }
  }

  /** A fetched transcript is every segment's text, in order, with one space between neighbours
      (where each segment sits: `SegmentsInPlace`), so its length is theirs plus one per gap. */
  lemma TranscriptText(url: string, fetch: string -> TranscriptFetch)
    requires ExtractVideoId(url).Some? && fetch(ExtractVideoId(url).value).Segments?
    requires |fetch(ExtractVideoId(url).value).texts| >= 1
    ensures GetYouTubeTranscript(url, fetch) == Ok(Join(fetch(ExtractVideoId(url).value).texts, " "))
    ensures |GetYouTubeTranscript(url, fetch).value| == TotalLength(fetch(ExtractVideoId(url).value).texts)
                                                      + |fetch(ExtractVideoId(url).value).texts| - 1
  {
    JoinLength(fetch(ExtractVideoId(url).value).texts, " ");
  }
}
