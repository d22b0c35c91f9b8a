/** URL well-formedness, platform classification and error categorisation
    (app/utils/validation.py). All three are pure functions of their input. */
module Validation {
  import opened Common

  // ================================================================ is_valid_url

  /** Characters the host part of the URL pattern can consume. */
  predicate IsHostChar(c: char) { IsAlnum(c) || c == '-' || c == '.' }

  /** Length of the longest prefix of `s` made of host characters. */
  function HostRun(s: string): (n: nat)
    ensures n <= |s|
    ensures forall i :: 0 <= i < n ==> IsHostChar(s[i])
    ensures n < |s| ==> !IsHostChar(s[n])
  {
    if s != [] && IsHostChar(s[0]) then 1 + HostRun(s[1..]) else 0
  }

  /** Length of the longest prefix of `s` made of decimal digits. */
  function DigitRun(s: string): (n: nat)
    ensures n <= |s|
    ensures forall i :: 0 <= i < n ==> IsDigit(s[i])
    ensures n < |s| ==> !IsDigit(s[n])
  {
    if s != [] && IsDigit(s[0]) then 1 + DigitRun(s[1..]) else 0
  }

  /** `[A-Z0-9](?:[A-Z0-9-]{0,61}[A-Z0-9])?`, ignoring case. */
  predicate IsLabel(l: string) {
    1 <= |l| <= 63 && IsAlnum(l[0]) && IsAlnum(l[|l| - 1])
    && forall i :: 0 <= i < |l| ==> IsAlnum(l[i]) || l[i] == '-'
  }

  /** `[A-Z]{2,6}|[A-Z0-9-]{2,}`, ignoring case (the first is contained in the second). */
  predicate IsTopLevel(t: string) {
    |t| >= 2 && forall i :: 0 <= i < |t| ==> IsAlnum(t[i]) || t[i] == '-'
  }

  /** The domain alternative: one or more labels each followed by a dot, then a
      top-level part, with an optional final dot. */
  predicate IsDomainHost(h: string) {
    var core := if h != [] && h[|h| - 1] == '.' then h[..|h| - 1] else h;
    var parts := Split(core, '.');
    |parts| >= 2 && IsTopLevel(parts[|parts| - 1])
    && forall i :: 0 <= i < |parts| - 1 ==> IsLabel(parts[i])
  }

  /** `\d{1,3}\.\d{1,3}\.\d{1,3}\.\d{1,3}` */
  predicate IsDottedQuad(h: string) {
    var parts := Split(h, '.');
    |parts| == 4 && forall i :: 0 <= i < 4 ==> 1 <= |parts[i]| <= 3 && DigitRun(parts[i]) == |parts[i]|
  }

  predicate IsHost(h: string) {
    IsDomainHost(h) || Lower(h) == "localhost" || IsDottedQuad(h)
  }

  /** `(?:/?|[/?]\S+)` matched against the whole of `p`. */
  predicate IsPathCore(p: string) {
    p == "" || p == "/"
    || (|p| >= 2 && (p[0] == '/' || p[0] == '?') && forall i :: 1 <= i < |p| ==> !IsSpace(p[i]))
  }

  /** The path followed by `$`, which also matches just before a final newline. */
  predicate IsPathEnd(p: string) {
    IsPathCore(p) || (p != [] && p[|p| - 1] == '\n' && IsPathCore(p[..|p| - 1]))
  }

  /** `(?::\d+)?` and then the path. */
  predicate IsPortAndPath(t: string) {
    if t != [] && t[0] == ':' then
      var d := DigitRun(t[1..]);
      d >= 1 && IsPathEnd(t[1 + d..])
    else IsPathEnd(t)
  }

  /** Everything after the scheme: the host is the longest run of host
      characters, since none of the characters that may follow it is one. */
  predicate IsAuthorityAndPath(r: string) {
    var n := HostRun(r);
    IsHost(r[..n]) && IsPortAndPath(r[n..])
  }

  /** `s` starts with `p`, ignoring ASCII case. */
  predicate StartsWithIgnoringCase(s: string, p: string) {
    |p| <= |s| && Lower(s[..|p|]) == Lower(p)
  }

  /** `is_valid_url`: the case-insensitive URL pattern of the source. */
  predicate IsValidUrl(url: string) {
    (StartsWithIgnoringCase(url, "http://") && IsAuthorityAndPath(url[7..]))
    || (StartsWithIgnoringCase(url, "https://") && IsAuthorityAndPath(url[8..]))
  }

  /** A string that does not begin with `http://` or `https://`, in any case, is rejected. */
  lemma {:induction false} ValidUrlNeedsScheme(url: string)
    ensures IsValidUrl(url) ==> StartsWithIgnoringCase(url, "http://") || StartsWithIgnoringCase(url, "https://")
    ensures IsValidUrl(url) ==> |url| >= 7
  {
  }

  /** A scheme the pattern accepts: `http://` or `https://` in any case. */
  predicate IsScheme(scheme: string) {
    Lower(scheme) == "http://" || Lower(scheme) == "https://"
  }

  /** The optional `:port` part of a URL. */
  function PortText(port: string): string {
    if port == "" then "" else ":" + port
  }

  /** Every URL of the pattern's shape is accepted: a scheme, a host made of
      host characters, an optional port of digits and a path. */
  lemma {:induction false} HostShapeAccepted(scheme: string, h: string, port: string, q: string)
    requires IsScheme(scheme)
    requires IsHost(h) && forall i :: 0 <= i < |h| ==> IsHostChar(h[i])
    requires forall i :: 0 <= i < |port| ==> IsDigit(port[i])
    requires IsPathEnd(q)
    ensures IsValidUrl(scheme + h + PortText(port) + q)
  {
    var rest := h + (PortText(port) + q);
    assert scheme + h + PortText(port) + q == scheme + rest;
    AuthorityShape(h, port, q);
    SchemeBranch(scheme, rest);
  }

  /** What follows the scheme in a URL of the pattern's shape matches the
      host, port and path groups. */
  lemma AuthorityShape(h: string, port: string, q: string)
    requires IsHost(h) && forall i :: 0 <= i < |h| ==> IsHostChar(h[i])
    requires forall i :: 0 <= i < |port| ==> IsDigit(port[i])
    requires IsPathEnd(q)
    ensures IsAuthorityAndPath(h + (PortText(port) + q))
  {
    PortAndPath(port, q);
    HostPart(h, PortText(port) + q);
  }

  /** The host group takes exactly the host when a non-host character follows it. */
  lemma HostPart(h: string, t: string)
    requires IsHost(h) && forall i :: 0 <= i < |h| ==> IsHostChar(h[i])
    requires t == [] || !IsHostChar(t[0])
    requires IsPortAndPath(t)
    ensures IsAuthorityAndPath(h + t)
  {
    HostRunOfPrefix(h, t);
    assert (h + t)[..|h|] == h;
    assert (h + t)[|h|..] == t;
  }

  /** A URL whose host run is not a host is rejected. */
  lemma {:induction false} NonHostRejected(scheme: string, r: string)
    requires IsScheme(scheme)
    requires !IsHost(r[..HostRun(r)])
    ensures !IsValidUrl(scheme + r)
  {
    var url := scheme + r;
    if Lower(scheme) == "http://" {
      assert |scheme| == 7 && url[..7] == scheme && url[7..] == r;
      assert !StartsWithIgnoringCase(url, "https://") by {
        if |url| >= 8 {
          assert Lower(url[..8])[4] == LowerChar(scheme[4]) == ':';
          assert Lower("https://")[4] == 's';
        }
      }
    } else {
      assert |scheme| == 8 && url[..8] == scheme && url[8..] == r;
      assert !StartsWithIgnoringCase(url, "http://") by {
        assert Lower(url[..7])[4] == LowerChar(scheme[4]) == 's';
        assert Lower("http://")[4] == ':';
      }
    }
  }

  /** The path alternatives begin with `/`, `?`, or the final newline. */
  lemma PathStart(q: string)
    requires IsPathEnd(q) && q != []
    ensures q[0] == '/' || q[0] == '?' || q[0] == '\n'
  {
    if !IsPathCore(q) {
      var c := q[..|q| - 1];
      if c != [] {
        assert q[0] == c[0];
      }
    }
  }

  /** The host run stops where the host characters do. */
  lemma {:induction false} HostRunOfPrefix(h: string, rest: string)
    requires forall i :: 0 <= i < |h| ==> IsHostChar(h[i])
    requires rest == [] || !IsHostChar(rest[0])
    ensures HostRun(h + rest) == |h|
    decreases |h|
  {
    if h != [] {
      assert (h + rest)[1..] == h[1..] + rest;
      HostRunOfPrefix(h[1..], rest);
    }
  }

  /** The digit run stops where the digits do. */
  lemma {:induction false} DigitRunOfPrefix(d: string, rest: string)
    requires forall i :: 0 <= i < |d| ==> IsDigit(d[i])
    requires rest == [] || !IsDigit(rest[0])
    ensures DigitRun(d + rest) == |d|
    decreases |d|
  {
    if d != [] {
      assert (d + rest)[1..] == d[1..] + rest;
      DigitRunOfPrefix(d[1..], rest);
    }
  }

  /** The port and path groups match what follows the host, and what follows
      the host does not begin with a host character. */
  lemma PortAndPath(port: string, q: string)
    requires forall i :: 0 <= i < |port| ==> IsDigit(port[i])
    requires IsPathEnd(q)
    ensures IsPortAndPath(PortText(port) + q)
    ensures var t := PortText(port) + q; t == [] || !IsHostChar(t[0])
  {
    if q != [] {
      PathStart(q);
    }
    var t := PortText(port) + q;
    if port != "" {
      assert t[0] == ':';
      assert t[1..] == port + q;
      DigitRunOfPrefix(port, q);
      assert t[1 + |port|..] == q;
    } else {
      assert t == q;
    }
  }

  /** A scheme selects its own alternative of the pattern. */
  lemma SchemeBranch(scheme: string, rest: string)
    requires IsScheme(scheme) && IsAuthorityAndPath(rest)
    ensures IsValidUrl(scheme + rest)
  {
    var url := scheme + rest;
    if Lower(scheme) == "http://" {
      assert url[..7] == scheme && url[7..] == rest;
    } else {
      assert url[..8] == scheme && url[8..] == rest;
    }
  }

  // ======================================================= validate_url_platform

  /** The platform table in its declaration order, each with its literal patterns. */
  const PlatformPatterns: seq<(string, seq<string>)> := [
    ("youtube", ["youtube.com", "youtu.be"]),
    ("tiktok", ["tiktok.com"]),
    ("instagram", ["instagram.com"]),
    ("twitter", ["twitter.com", "x.com"]),
    ("facebook", ["facebook.com", "fb.watch"]),
    ("vimeo", ["vimeo.com"]),
    ("dailymotion", ["dailymotion.com"]),
    ("twitch", ["twitch.tv"])
  ]

  const UnsupportedPlatformMessage: string :=
    "URL may not be from a supported platform. Supported platforms include YouTube, TikTok, Instagram, Twitter, Facebook, Vimeo, and more."

  /** Some pattern of the list occurs in `s`. */
  predicate AnyPatternIn(patterns: seq<string>, s: string) {
    exists j :: 0 <= j < |patterns| && Contains(s, patterns[j])
  }

  /** Index of the first platform with a pattern in `s`, or the table length when none has. */
  function FirstPlatform(table: seq<(string, seq<string>)>, s: string): (k: nat)
    ensures k <= |table|
    ensures k < |table| ==> AnyPatternIn(table[k].1, s)
    ensures forall j :: 0 <= j < k ==> !AnyPatternIn(table[j].1, s)
  {
    if table == [] then 0
    else if AnyPatternIn(table[0].1, s) then 0
    else 1 + FirstPlatform(table[1..], s)
  }

  datatype PlatformCheck = PlatformCheck(supported: bool, platform: string, message: Option<string>)

  /** `validate_url_platform`. Patterns are lower-case literals, so a
      case-insensitive search is a search in the lower-cased URL. */
  function ValidateUrlPlatform(url: string): (r: PlatformCheck)
    ensures r.supported <==> r.message.None?
    ensures r.supported <==> r.platform != "unknown"
    ensures !r.supported ==> r.platform == "unknown" && r.message == Some(UnsupportedPlatformMessage)
  {
    var k := FirstPlatform(PlatformPatterns, Lower(url));
    if k < |PlatformPatterns| then PlatformCheck(true, PlatformPatterns[k].0, None)
    else PlatformCheck(false, "unknown", Some(UnsupportedPlatformMessage))
  }

  /** The platform found is the first table entry, in declaration order, with a
      pattern occurring anywhere in the lower-cased URL. */
  lemma {:induction false} PlatformIsFirstMatch(url: string, i: nat)
    requires i < |PlatformPatterns|
    ensures ValidateUrlPlatform(url) == PlatformCheck(true, PlatformPatterns[i].0, None)
            <==> AnyPatternIn(PlatformPatterns[i].1, Lower(url))
                 && forall j :: 0 <= j < i ==> !AnyPatternIn(PlatformPatterns[j].1, Lower(url))
  {
    var k := FirstPlatform(PlatformPatterns, Lower(url));
    if ValidateUrlPlatform(url) == PlatformCheck(true, PlatformPatterns[i].0, None) {
      // platform names are distinct, so the name identifies the index
      assert k < |PlatformPatterns| && PlatformPatterns[k].0 == PlatformPatterns[i].0;
      assert k == i;
    }
  }

  /** No pattern anywhere in the URL gives the unsupported answer, and conversely. */
  lemma {:induction false} UnknownIffNoPattern(url: string)
    ensures !ValidateUrlPlatform(url).supported
            <==> forall j :: 0 <= j < |PlatformPatterns| ==> !AnyPatternIn(PlatformPatterns[j].1, Lower(url))
  {
  }

  /** Classification ignores case. */
  lemma {:induction false} PlatformIgnoresCase(a: string, b: string)
    requires Lower(a) == Lower(b)
    ensures ValidateUrlPlatform(a) == ValidateUrlPlatform(b)
  {
  }

  /** A pattern containing a character the string lacks does not occur in it. */
  lemma MissingCharExcludes(s: string, p: string, c: char)
    requires c in p && c !in s
    ensures !Contains(s, p)
  {
    ContainedCharsOccur(s, p);
  }

  const NetflixUrl: string := "https://www.netflix.com/title/1"

  lemma NetflixLacks()
    ensures 'y' !in NetflixUrl && 'k' !in NetflixUrl && 'g' !in NetflixUrl
  {
  }

  lemma NetflixIsLower()
    ensures Lower(NetflixUrl) == NetflixUrl
  {
    LowerOfLowercase(NetflixUrl);
  }

  /** Which platform patterns occur in one Netflix URL: none of the first
      three platforms', and twitter's `x.com` inside `netflix.com`. */
  lemma NetflixPatterns()
    ensures !AnyPatternIn(PlatformPatterns[0].1, NetflixUrl)
    ensures !AnyPatternIn(PlatformPatterns[1].1, NetflixUrl)
    ensures !AnyPatternIn(PlatformPatterns[2].1, NetflixUrl)
    ensures AnyPatternIn(PlatformPatterns[3].1, NetflixUrl)
  {
    var u := NetflixUrl;
    NetflixLacks();
    MissingCharExcludes(u, "youtube.com", 'y');
    MissingCharExcludes(u, "youtu.be", 'y');
    MissingCharExcludes(u, "tiktok.com", 'k');
    MissingCharExcludes(u, "instagram.com", 'g');
    assert u[18] == 'x' && u[19] == '.' && u[20] == 'c' && u[21] == 'o' && u[22] == 'm';
    assert u[18..23] == "x.com";
    assert OccursAt(u, "x.com", 18);
    assert PlatformPatterns[3].1[1] == "x.com";
    assert Contains(u, PlatformPatterns[3].1[1]);
  }

  /** The search is unanchored: "x.com" inside "netflix.com" makes a Netflix URL a Twitter URL. */
  lemma NetflixIsTwitter()
    ensures ValidateUrlPlatform(NetflixUrl).platform == "twitter"
  {
    NetflixIsLower();
    NetflixPatterns();
    PlatformIsFirstMatch(NetflixUrl, 3);
    assert PlatformPatterns[3].0 == "twitter";
  }

  // ============================================================ categorize_error

  datatype ErrorCategory =
    | InstagramAuthError | InstagramExtractionError
    | FacebookParseError | FacebookFormatError | FacebookUrlError
    | TiktokBlocked
    | YoutubeUnavailable | YoutubeAgeVerification | YoutubeMembersOnly | YoutubePremiere | YoutubeClientError
    | MissingDependency
    | PrivateVideo | GeoRestricted | AgeRestricted | Copyright | FormatError | NetworkError
    | VideoNotFound | LiveStream | AuthRequired
    | GeneralError

  /** The `category` string the service reports. */
  function CategoryName(c: ErrorCategory): string {
    match c
    case InstagramAuthError => "INSTAGRAM_AUTH_ERROR"
    case InstagramExtractionError => "INSTAGRAM_EXTRACTION_ERROR"
    case FacebookParseError => "FACEBOOK_PARSE_ERROR"
    case FacebookFormatError => "FACEBOOK_FORMAT_ERROR"
    case FacebookUrlError => "FACEBOOK_URL_ERROR"
    case TiktokBlocked => "TIKTOK_BLOCKED"
    case YoutubeUnavailable => "YOUTUBE_UNAVAILABLE"
    case YoutubeAgeVerification => "YOUTUBE_AGE_VERIFICATION"
    case YoutubeMembersOnly => "YOUTUBE_MEMBERS_ONLY"
    case YoutubePremiere => "YOUTUBE_PREMIERE"
    case YoutubeClientError => "YOUTUBE_CLIENT_ERROR"
    case MissingDependency => "MISSING_DEPENDENCY"
    case PrivateVideo => "PRIVATE_VIDEO"
    case GeoRestricted => "GEO_RESTRICTED"
    case AgeRestricted => "AGE_RESTRICTED"
    case Copyright => "COPYRIGHT"
    case FormatError => "FORMAT_ERROR"
    case NetworkError => "NETWORK_ERROR"
    case VideoNotFound => "VIDEO_NOT_FOUND"
    case LiveStream => "LIVE_STREAM"
    case AuthRequired => "AUTH_REQUIRED"
    case GeneralError => "GENERAL_ERROR"
  }

  /** The triple the classifier returns. */
  datatype ErrorInfo = ErrorInfo(category: ErrorCategory, userMessage: string, suggestion: string)

  /** The message shown to the user for each category. */
  function UserMessage(c: ErrorCategory): string {
    match c
    case InstagramAuthError =>
      "Instagram requires authentication to access this content. Please provide fresh cookies or try again later."
    case InstagramExtractionError =>
      "Unable to extract Instagram content. The post may be private or deleted."
    case FacebookParseError =>
      "Unable to parse Facebook video data. The video may be private or deleted."
    case FacebookFormatError =>
      "No downloadable video formats found on Facebook. The content may be protected."
    case FacebookUrlError =>
      "This Facebook URL format is not supported. Please use a direct video URL."
    case TiktokBlocked =>
      "TikTok has blocked access from your IP address. This is a temporary restriction."
    case YoutubeUnavailable =>
      "YouTube video is unavailable. It may be private, deleted, or region-restricted."
    case YoutubeAgeVerification =>
      "This YouTube video requires age verification or sign-in to access."
    case YoutubeMembersOnly =>
      "This YouTube video is available to channel members only."
    case YoutubePremiere =>
      "This YouTube video is scheduled as a premiere and not yet available."
    case YoutubeClientError =>
      "YouTube client configuration error. Trying alternative methods."
    case MissingDependency =>
      "Browser cookie extraction is not available. Using fallback method."
    case PrivateVideo =>
      "This video is private or unavailable. Please check if the video is publicly accessible."
    case GeoRestricted =>
      "This video is not available in your region due to geographical restrictions."
    case AgeRestricted =>
      "This video is age-restricted and cannot be downloaded."
    case Copyright =>
      "This video is protected by copyright and cannot be downloaded."
    case FormatError =>
      "No suitable video format found for download."
    case NetworkError =>
      "Network error occurred while downloading the video."
    case VideoNotFound =>
      "Video not found. The URL may be incorrect or the video may have been deleted."
    case LiveStream =>
      "Live streams cannot be downloaded while they are active."
    case AuthRequired =>
      "This video requires authentication to access."
    case GeneralError =>
      "An error occurred while processing your request."
  }

  /** The suggestion that goes with each category. */
  function Suggestion(c: ErrorCategory): string {
    match c
    case InstagramAuthError =>
      "This Instagram post may be private or require login. Try using browser cookies or a public post."
    case InstagramExtractionError =>
      "Ensure the Instagram URL is correct and the post is publicly accessible."
    case FacebookParseError =>
      "Ensure the Facebook video is publicly accessible and the URL is correct."
    case FacebookFormatError =>
      "This Facebook video may not be downloadable due to privacy settings."
    case FacebookUrlError =>
      "Try using a direct Facebook video URL instead of a profile or page URL."
    case TiktokBlocked =>
      "TikTok may have rate-limited your IP. Try again later or use a different network."
    case YoutubeUnavailable =>
      "Check if the YouTube video exists and is publicly accessible."
    case YoutubeAgeVerification =>
      "This video has age restrictions or privacy settings. The system will try alternative extraction methods."
    case YoutubeMembersOnly =>
      "This content requires a YouTube channel membership to access."
    case YoutubePremiere =>
      "Wait for the premiere to start or check the scheduled time."
    case YoutubeClientError =>
      "The system is attempting different extraction strategies automatically."
    case MissingDependency =>
      "The system will try alternative extraction methods automatically."
    case PrivateVideo =>
      "Try a different video URL or contact the video owner."
    case GeoRestricted =>
      "This content may be restricted in your location."
    case AgeRestricted =>
      "Age-restricted content requires special authentication."
    case Copyright =>
      "Please respect copyright restrictions."
    case FormatError =>
      "Try selecting a different quality or check if the video supports downloads."
    case NetworkError =>
      "Please check your internet connection and try again."
    case VideoNotFound =>
      "Please verify the URL and try again."
    case LiveStream =>
      "Wait for the stream to end or try downloading a recorded version."
    case AuthRequired =>
      "This content may require login credentials."
    case GeneralError =>
      "Please try again later or contact support if the issue persists."
  }

  /** A rule's test: substring tests combined with `and` / `or`. */
  datatype Cond = Has(pattern: string) | Both(left: Cond, right: Cond) | Either(left: Cond, right: Cond)

  predicate Holds(c: Cond, s: string) {
    match c
    case Has(p) => Contains(s, p)
    case Both(a, b) => Holds(a, s) && Holds(b, s)
    case Either(a, b) => Holds(a, s) || Holds(b, s)
  }

  datatype Rule = Rule(test: Cond, category: ErrorCategory)

  /** Rule `i` of the `if`/`elif` chain of `categorize_error`, in source order. */
  function RuleAt(i: nat): Rule
    requires i < 21
  {
    Rule(TestAt(i), CategoryAt(i))
  }

  /** The test of rule `i`. */
  function TestAt(i: nat): Cond
    requires i < 21
  {
    if i == 0 then Has("instagram sent an empty media response")
    else if i == 1 then Both(Has("instagram"), Has("unable to extract data"))
    else if i == 2 then Both(Has("facebook"), Has("cannot parse data"))
    else if i == 3 then Both(Has("facebook"), Has("no video formats found"))
    else if i == 4 then Both(Has("unsupported url"), Has("facebook"))
    else if i == 5 then Both(Has("tiktok"), Has("ip address is blocked"))
    else if i == 6 then Both(Has("youtube"), Has("video unavailable"))
    else if i == 7 then Both(Has("youtube"), Either(Has("sign in"), Has("confirm your age")))
    else if i == 8 then Both(Has("youtube"), Has("members-only"))
    else if i == 9 then Both(Has("youtube"), Either(Has("premieres"), Has("premiere")))
    else if i == 10 then Both(Has("youtube"), Has("player_client"))
    else if i == 11 then Has("secretstorage not available")
    else if i == 12 then Either(Has("private"), Has("unavailable"))
    else if i == 13 then Either(Has("geo"), Either(Has("region"), Has("country")))
    else if i == 14 then Either(Has("age"), Has("restricted"))
    else if i == 15 then Either(Has("copyright"), Has("dmca"))
    else if i == 16 then Either(Has("format"), Has("no video"))
    else if i == 17 then Either(Has("network"), Either(Has("timeout"), Has("connection")))
    else if i == 18 then Either(Has("not found"), Has("404"))
    else if i == 19 then Either(Has("live"), Has("stream"))
    else Either(Has("login"), Has("authentication"))
  }

  /** The category rule `i` reports. */
  function CategoryAt(i: nat): ErrorCategory
    requires i < 21
  {
    if i == 0 then InstagramAuthError
    else if i == 1 then InstagramExtractionError
    else if i == 2 then FacebookParseError
    else if i == 3 then FacebookFormatError
    else if i == 4 then FacebookUrlError
    else if i == 5 then TiktokBlocked
    else if i == 6 then YoutubeUnavailable
    else if i == 7 then YoutubeAgeVerification
    else if i == 8 then YoutubeMembersOnly
    else if i == 9 then YoutubePremiere
    else if i == 10 then YoutubeClientError
    else if i == 11 then MissingDependency
    else if i == 12 then PrivateVideo
    else if i == 13 then GeoRestricted
    else if i == 14 then AgeRestricted
    else if i == 15 then Copyright
    else if i == 16 then FormatError
    else if i == 17 then NetworkError
    else if i == 18 then VideoNotFound
    else if i == 19 then LiveStream
    else AuthRequired
  }

  /** The number of rules in the chain. */
  const RuleCount: nat := 21

  /** Position of each category in the chain; the general category comes after every rule. */
  function Rank(c: ErrorCategory): nat {
    match c
    case InstagramAuthError => 0
    case InstagramExtractionError => 1
    case FacebookParseError => 2
    case FacebookFormatError => 3
    case FacebookUrlError => 4
    case TiktokBlocked => 5
    case YoutubeUnavailable => 6
    case YoutubeAgeVerification => 7
    case YoutubeMembersOnly => 8
    case YoutubePremiere => 9
    case YoutubeClientError => 10
    case MissingDependency => 11
    case PrivateVideo => 12
    case GeoRestricted => 13
    case AgeRestricted => 14
    case Copyright => 15
    case FormatError => 16
    case NetworkError => 17
    case VideoNotFound => 18
    case LiveStream => 19
    case AuthRequired => 20
    case GeneralError => 21
  }

  /** Rule `i` reports the category of rank `i`, so rules and the non-general
      categories correspond one to one. */
  lemma RuleRank(i: nat)
    requires i < RuleCount
    ensures Rank(CategoryAt(i)) == i
  {
  }

  lemma RankInjective(a: ErrorCategory, b: ErrorCategory)
    ensures Rank(a) == Rank(b) ==> a == b
  {
  }

  /** Index of the first rule from `i` on whose test holds of `s`, or `RuleCount` when none does. */
  function FirstRuleFrom(i: nat, s: string): (k: nat)
    requires i <= RuleCount
    ensures i <= k <= RuleCount
    ensures k < RuleCount ==> Holds(RuleAt(k).test, s)
    ensures forall j :: i <= j < k ==> !Holds(RuleAt(j).test, s)
    decreases RuleCount - i
  {
    if i == RuleCount then i
    else if Holds(RuleAt(i).test, s) then i
    else FirstRuleFrom(i + 1, s)
  }

  /** The category of the first rule whose test holds of `s`, GENERAL_ERROR when none does. */
  function Classify(s: string): (c: ErrorCategory)
    ensures Rank(c) == FirstRuleFrom(0, s)
  {
    var k := FirstRuleFrom(0, s);
    if k < RuleCount then RuleRank(k); CategoryAt(k) else GeneralError
  }

  /** The category alone: the classifier runs on the lower-cased message. */
  function Category(message: string): (c: ErrorCategory)
    ensures Rank(c) == FirstRuleFrom(0, Lower(message))
  {
    Classify(Lower(message))
  }

  /** `categorize_error`: the category of the first matching rule with its two texts. */
  function CategorizeError(message: string): (r: ErrorInfo)
    ensures r.category == Category(message)
    ensures r.userMessage == UserMessage(r.category) && r.suggestion == Suggestion(r.category)
  {
    var c := Category(message);
    ErrorInfo(c, UserMessage(c), Suggestion(c))
  }

  /** The first matching rule is characterised by its two properties: rule `r`
      holds (or `r` is past the last rule) and no earlier rule does. */
  lemma {:induction false} FirstRuleIsUnique(s: string, r: nat)
    requires r <= RuleCount
    ensures FirstRuleFrom(0, s) == r
            <==> (r < RuleCount ==> Holds(RuleAt(r).test, s)) && forall j :: 0 <= j < r ==> !Holds(RuleAt(j).test, s)
  {
    var k := FirstRuleFrom(0, s);
  }

  /** The category reported has rank `r` exactly when rule `r` is the first
      whose test holds of the lower-cased message (rank `RuleCount`, i.e.
      GENERAL_ERROR: exactly when no rule holds). Ranks identify categories
      (`RankInjective`). */
  lemma {:induction false} CategoryIsFirstMatch(message: string, r: nat)
    requires r <= RuleCount
    ensures Rank(Category(message)) == r
            <==> (r < RuleCount ==> Holds(RuleAt(r).test, Lower(message)))
                 && forall j :: 0 <= j < r ==> !Holds(RuleAt(j).test, Lower(message))
  {
    FirstRuleIsUnique(Lower(message), r);
  }

  /** The ranks of the categories the lemmas below compare against. */
  lemma NamedRanks()
    ensures Rank(YoutubeUnavailable) == 6 && Rank(PrivateVideo) == 12
    ensures Rank(AgeRestricted) == 14 && Rank(VideoNotFound) == 18 && Rank(LiveStream) == 19
    ensures Rank(GeneralError) == RuleCount
  {
  }

  /** The classifier reports GENERAL_ERROR exactly when no rule matches. */
  lemma {:induction false} UnmatchedIsGeneral(message: string)
    ensures (forall j :: 0 <= j < RuleCount ==> !Holds(RuleAt(j).test, Lower(message)))
            <==> Category(message) == GeneralError
  {
    FirstRuleIsUnique(Lower(message), RuleCount);
    RankInjective(Category(message), GeneralError);
    NamedRanks();
  }

  /** The classification depends only on the lower-cased message. */
  lemma {:induction false} CategoryIgnoresCase(a: string, b: string)
    requires Lower(a) == Lower(b)
    ensures CategorizeError(a) == CategorizeError(b)
  {
  }

  /** The YouTube rule precedes the generic one: a message naming YouTube and
      "video unavailable" is never reported as PRIVATE_VIDEO, and it is
      YOUTUBE_UNAVAILABLE unless an Instagram, Facebook or TikTok rule came first. */
  lemma {:induction false} YoutubeUnavailableBeforePrivate(message: string)
    requires Contains(Lower(message), "youtube") && Contains(Lower(message), "video unavailable")
    ensures Category(message) != PrivateVideo
    ensures !Contains(Lower(message), "instagram") && !Contains(Lower(message), "facebook")
            && !Contains(Lower(message), "tiktok")
            ==> Category(message) == YoutubeUnavailable
  {
    var s := Lower(message);
    YoutubeRuleCatches(s);
    NamedRanks();
    if !Contains(s, "instagram") && !Contains(s, "facebook") && !Contains(s, "tiktok") {
      PlatformRulesSkip(s);
      RankInjective(Category(message), YoutubeUnavailable);
    }
  }

  /** The YouTube "video unavailable" rule is rule 6. */
  lemma YoutubeRuleCatches(s: string)
    requires Contains(s, "youtube") && Contains(s, "video unavailable")
    ensures FirstRuleFrom(0, s) <= 6
  {
    assert Holds(Has("youtube"), s) && Holds(Has("video unavailable"), s);
    assert Holds(TestAt(6), s);
    CaughtBy(s, 6);
  }

  /** Rules 0 to 5 all need "instagram", "facebook" or "tiktok". */
  lemma PlatformRulesSkip(s: string)
    requires !Contains(s, "instagram") && !Contains(s, "facebook") && !Contains(s, "tiktok")
    ensures FirstRuleFrom(0, s) >= 6
  {
    if Contains(s, "instagram sent an empty media response") {
      assert OccursAt("instagram sent an empty media response", "instagram", 0);
      ContainsTransitive(s, "instagram sent an empty media response", "instagram");
    }
    assert forall j :: 0 <= j < 6 ==> !Holds(TestAt(j), s);
  }

  /** A rule whose test holds bounds the first match from above. */
  lemma CaughtBy(s: string, r: nat)
    requires r < RuleCount && Holds(RuleAt(r).test, s)
    ensures FirstRuleFrom(0, s) <= r
  {
  }

  /** "webpage" contains "age", so the "age" rule (rule 14) catches any text mentioning "webpage". */
  lemma AgeRuleCatches(s: string)
    requires Contains(s, "webpage")
    ensures FirstRuleFrom(0, s) <= 14
  {
    assert OccursAt("webpage", "age", 4);
    ContainsTransitive(s, "webpage", "age");
    assert Holds(Has("age"), s);
    CaughtBy(s, 14);
  }

  /** The live-stream rule (rule 19) catches any text mentioning "stream". */
  lemma LiveRuleCatches(s: string)
    requires Contains(s, "stream")
    ensures FirstRuleFrom(0, s) <= 19
  {
    assert Holds(Has("stream"), s);
    CaughtBy(s, 19);
  }

  /** A bound on the first rule matching the lower-cased message bounds the rank of the category reported. */
  lemma RankAtMost(message: string, r: nat)
    requires r <= RuleCount && FirstRuleFrom(0, Lower(message)) <= r
    ensures Rank(Category(message)) <= r
  {
  }

  /** The categories ranked after AGE_RESTRICTED. */
  lemma RankedBeforeCopyright(c: ErrorCategory)
    requires Rank(c) <= 14
    ensures c !in {Copyright, FormatError, NetworkError, VideoNotFound, LiveStream, AuthRequired, GeneralError}
  {
  }

  /** The categories ranked after LIVE_STREAM. */
  lemma RankedBeforeAuthentication(c: ErrorCategory)
    requires Rank(c) <= 19
    ensures c != AuthRequired && c != GeneralError
  {
  }

  /** Precedence has consequences: every message mentioning "webpage" is caught
      by the "age" test, so it is never reported as a copyright, format,
      network, not-found, live-stream, authentication or general error. */
  lemma {:induction false} WebpageIsCaughtByAge(message: string)
    requires Contains(Lower(message), "webpage")
    ensures Rank(Category(message)) <= Rank(AgeRestricted)
    ensures Category(message) !in {Copyright, FormatError, NetworkError, VideoNotFound, LiveStream, AuthRequired, GeneralError}
  {
    AgeRuleCatches(Lower(message));
    RankAtMost(message, 14);
    NamedRanks();
    RankedBeforeCopyright(Category(message));
  }

  /** A message mentioning "stream" is reported at LIVE_STREAM or earlier: never AUTH_REQUIRED nor GENERAL_ERROR. */
  lemma {:induction false} StreamBeforeAuthentication(message: string)
    requires Contains(Lower(message), "stream")
    ensures Rank(Category(message)) <= Rank(LiveStream)
    ensures Category(message) != AuthRequired
    ensures Category(message) != GeneralError
  {
    LiveRuleCatches(Lower(message));
    RankAtMost(message, 19);
    NamedRanks();
    RankedBeforeAuthentication(Category(message));
  }
}
