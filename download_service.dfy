/** The acquisition orchestration of app/services/download.py: the yt-dlp
    options for a job, the per-platform list of extraction strategies tried in
    order, and the record updates a download makes in the store.

    The yt-dlp engine is a parameter: a function from a URL and an options
    dictionary to the extracted info or a failure message. The downloads
    directory after the engine ran, the cookie directory and the browser
    cookie options are parameters too. */
module DownloadService {
  import opened Common
  import opened Validation
  import opened Storage

  // ------------------------------------------------------------ format string

  /** The six-alternative format chain for a maximum height. */
  function HeightChain(height: string): string {
    "best[ext=mp4][height<=" + height + "]/best[ext=mp4]/mp4[height<=" + height + "]/mp4/best[height<=" + height + "]/best"
  }

  /** The format selector for a quality: "best" alone, otherwise the quality
      without its `p` as a maximum height. Every selector ends in the plain
      `best` fallback. */
  function FormatString(quality: string): (f: string)
    ensures quality == "best" ==> f == "best[ext=mp4]/best"
    ensures quality != "best" ==> f == HeightChain(RemoveChar(quality, 'p'))
    ensures EndsWith(f, "/best")
  {
    if quality == "best" then "best[ext=mp4]/best"
    else
      var f := HeightChain(RemoveChar(quality, 'p'));
      assert f[|f| - 5..] == "/best";
      f
  }

  /** The height text of a non-best quality has no `p` left in it. */
  lemma {:induction false} HeightHasNoP(quality: string)
    requires quality != "best"
    ensures exists h :: FormatString(quality) == HeightChain(h) && 'p' !in h
  {
    var h := RemoveChar(quality, 'p');
    assert FormatString(quality) == HeightChain(h);
  }

  // ------------------------------------------------------------ cookie files

  /** `_get_cookie_file`'s candidate names, per platform, in search order. */
  function CookieCandidates(platform: string): (r: Option<seq<string>>)
    ensures r.Some? <==> platform in {"youtube", "instagram", "tiktok", "twitter", "facebook", "vimeo"}
  {
    if platform == "youtube" then Some(["youtube.com_cookies.txt", "youtube_cookies.txt"])
    else if platform == "instagram" then Some(["instagram.com_cookies.txt", "instagram_cookies.txt"])
    else if platform == "tiktok" then Some(["tiktok.com_cookies.txt", "tiktok_cookies.txt"])
    else if platform == "twitter" then Some(["twitter.com_cookies.txt", "x.com_cookies.txt", "twitter_cookies.txt"])
    else if platform == "facebook" then Some(["facebook.com_cookies.txt", "facebook_cookies.txt"])
    else if platform == "vimeo" then Some(["vimeo.com_cookies.txt", "vimeo_cookies.txt"])
    else None
  }

  /** A cookie file is used when it exists with more than 100 bytes. */
  predicate Usable(cookieDir: map<string, nat>, name: string) {
    name in cookieDir && cookieDir[name] > 100
  }

  /** Index of the first usable candidate, or the list length when none is. */
  function FirstUsable(cands: seq<string>, cookieDir: map<string, nat>): (k: nat)
    ensures k <= |cands|
    ensures k < |cands| ==> Usable(cookieDir, cands[k])
    ensures forall j :: 0 <= j < k ==> !Usable(cookieDir, cands[j])
  {
    if cands == [] then 0
    else if Usable(cookieDir, cands[0]) then 0
    else 1 + FirstUsable(cands[1..], cookieDir)
  }

  /** `_get_cookie_file`: the first candidate of the platform that is usable,
      None when none is or the platform has no candidates. `cookieDir` maps the
      names in the cookie directory to their sizes. */
  function CookieFile(platform: string, cookieDir: map<string, nat>): (r: Option<string>)
    ensures r.Some? ==> CookieCandidates(platform).Some? && r.value in CookieCandidates(platform).value
                        && Usable(cookieDir, r.value)
    ensures r.None? <==> CookieCandidates(platform).None?
                         || forall c :: c in CookieCandidates(platform).value ==> !Usable(cookieDir, c)
  {
    match CookieCandidates(platform)
    case None => None
    case Some(cands) =>
      var k := FirstUsable(cands, cookieDir);
      if k < |cands| then Some(cands[k]) else None
  }

  /** The candidate returned is the first usable one in the platform's list. */
  lemma {:induction false} CookieFileIsFirstUsable(platform: string, cookieDir: map<string, nat>, i: nat)
    requires CookieCandidates(platform).Some? && i < |CookieCandidates(platform).value|
    ensures CookieFile(platform, cookieDir) == Some(CookieCandidates(platform).value[i])
            <==> Usable(cookieDir, CookieCandidates(platform).value[i])
                 && forall j :: 0 <= j < i ==> !Usable(cookieDir, CookieCandidates(platform).value[j])
  {
    var cands := CookieCandidates(platform).value;
    var k := FirstUsable(cands, cookieDir);
    // candidate names are distinct within every list
    assert forall a, b :: 0 <= a < b < |cands| ==> cands[a] != cands[b];
  }

  // ------------------------------------------------------------- HTTP headers

  const BaseHeaders: map<string, string> := map[
    "Accept" := "text/html,application/xhtml+xml,application/xml;q=0.9,image/webp,image/apng,*/*;q=0.8",
    "Accept-Language" := "en-US,en;q=0.9",
    "Accept-Encoding" := "gzip, deflate, br",
    "DNT" := "1",
    "Connection" := "keep-alive",
    "Upgrade-Insecure-Requests" := "1",
    "Sec-Fetch-Dest" := "document",
    "Sec-Fetch-Mode" := "navigate",
    "Sec-Fetch-Site" := "none",
    "Sec-Fetch-User" := "?1",
    "Cache-Control" := "max-age=0",
    "sec-ch-ua" := "\"Chromium\";v=\"120\", \"Google Chrome\";v=\"120\", \"Not:A-Brand\";v=\"8\"",
    "sec-ch-ua-mobile" := "?0",
    "sec-ch-ua-platform" := "\"Windows\""
  ]

  /** The headers `_get_http_headers` adds for a platform. */
  function PlatformHeaders(platform: string): map<string, string> {
    if platform == "instagram" then map[
      "X-Instagram-AJAX" := "1",
      "X-Requested-With" := "XMLHttpRequest",
      "X-CSRFToken" := "missing",
      "Referer" := "https://www.instagram.com/",
      "Origin" := "https://www.instagram.com"]
    else if platform == "facebook" then map[
      "Referer" := "https://www.facebook.com/",
      "Origin" := "https://www.facebook.com",
      "X-Requested-With" := "XMLHttpRequest"]
    else if platform == "tiktok" then map[
      "Referer" := "https://www.tiktok.com/",
      "Origin" := "https://www.tiktok.com"]
    else map[]
  }

  /** `_get_http_headers`: the browser-like base headers updated with the
      platform's own. The base headers are always all present; Referer and
      Origin name the platform's site for the three platforms that set them. */
  function HttpHeaders(platform: string): (h: map<string, string>)
    ensures BaseHeaders.Keys <= h.Keys
    ensures forall k :: k in BaseHeaders && k !in PlatformHeaders(platform) ==> h[k] == BaseHeaders[k]
    ensures platform in {"instagram", "facebook", "tiktok"} <==> "Referer" in h
    ensures platform == "tiktok" ==> "Origin" in h && h["Referer"] == "https://www.tiktok.com/" && h["Origin"] == "https://www.tiktok.com"
  {
    BaseHeaders + PlatformHeaders(platform)
  }

  // ---------------------------------------------------------- yt-dlp options

  /** Where yt-dlp writes: the output template inside the downloads directory. */
  function OutputPath(template: string): string { "downloads/" + template }

  /** Where a cookie file is read from. */
  function CookiePath(name: string): string { "cookies/" + name }

  /** The options `_configure_ydl_options` sets to the same value for every
      job. The user agent and the retry back-off function are opaque. */
  const FixedOptions: Record := map[
    "merge_output_format" := VStr("mp4"),
    "writeinfojson" := VBool(false),
    "writesubtitles" := VBool(false),
    "writeautomaticsub" := VBool(false),
    "ignoreerrors" := VBool(false),
    "quiet" := VBool(true),
    "no_warnings" := VBool(true),
    "extractflat" := VBool(false),
    "writethumbnail" := VBool(true),
    "prefer_ffmpeg" := VBool(true),
    "user_agent" := VOther("desktop Chrome 120 user agent"),
    "http_chunk_size" := VInt(10485760),
    "retries" := VInt(10),
    "fragment_retries" := VInt(10),
    "retry_sleep_functions" := VOther("http: min(3 ** n, 60)"),
    "geo_bypass" := VBool(true),
    "geo_bypass_country" := VStr("US"),
    "age_limit" := VInt(21),
    "socket_timeout" := VInt(60),
    "nocheckcertificate" := VBool(true),
    "extractor_retries" := VInt(5),
    "skip_unavailable_fragments" := VBool(true),
    "prefer_insecure" := VBool(false),
    "call_home" := VBool(false),
    "continue_dl" := VBool(true),
    "nopart" := VBool(false),
    "default_search" := VStr("auto")
  ]

  /** The options that depend on the platform. */
  function PlatformOptions(platform: string): (o: Record)
    ensures o.Keys == {"http_headers", "youtube_include_dash_manifest"}
  {
    map["http_headers" := VHeaders(HttpHeaders(platform)),
        "youtube_include_dash_manifest" := VBool(platform == "youtube")]
  }

  /** The options that depend on the job. */
  function JobOptions(template: string, format: string): (o: Record)
    ensures o.Keys == {"outtmpl", "format"}
  {
    map["outtmpl" := VStr(OutputPath(template)), "format" := VStr(format)]
  }

  lemma FixedOptionsKeys()
    ensures "cookiefile" !in FixedOptions && "outtmpl" !in FixedOptions && "format" !in FixedOptions
    ensures "http_headers" !in FixedOptions && "youtube_include_dash_manifest" !in FixedOptions
  {
  }

  /** `_configure_ydl_options`: the fixed, platform and job options, with
      `cookiefile` exactly when the platform has a usable cookie file. */
  function ConfigureYdlOptions(template: string, format: string, platform: string, cookieDir: map<string, nat>): (o: Record)
    ensures "cookiefile" in o <==> CookieFile(platform, cookieDir).Some?
    ensures "cookiefile" in o ==> o["cookiefile"] == VStr(CookiePath(CookieFile(platform, cookieDir).value))
  {
    FixedOptionsKeys();
    Layered(FixedOptions, PlatformOptions(platform), JobOptions(template, format),
            match CookieFile(platform, cookieDir)
            case None => None
            case Some(name) => Some(CookiePath(name)))
  }

  /** The job's output path and format, and the platform's headers and DASH
      flag, are in the options. */
  lemma ConfiguredJobAndPlatform(template: string, format: string, platform: string, cookieDir: map<string, nat>)
    ensures var o := ConfigureYdlOptions(template, format, platform, cookieDir);
            && "outtmpl" in o && o["outtmpl"] == VStr(OutputPath(template))
            && "format" in o && o["format"] == VStr(format)
            && "http_headers" in o && o["http_headers"] == VHeaders(HttpHeaders(platform))
            && "youtube_include_dash_manifest" in o && o["youtube_include_dash_manifest"] == VBool(platform == "youtube")
  {
    FixedOptionsKeys();
    LayeredKeepsJobAndPlatform(FixedOptions, PlatformOptions(platform), JobOptions(template, format),
                               match CookieFile(platform, cookieDir)
                               case None => None
                               case Some(name) => Some(CookiePath(name)));
  }

  lemma LayeredKeepsJobAndPlatform(fixed: Record, platformOpts: Record, jobOpts: Record, cookie: Option<string>)
    requires "cookiefile" !in fixed
    requires platformOpts.Keys == {"http_headers", "youtube_include_dash_manifest"}
    requires jobOpts.Keys == {"outtmpl", "format"}
    ensures var o := Layered(fixed, platformOpts, jobOpts, cookie);
            && (forall k :: k in jobOpts ==> k in o && o[k] == jobOpts[k])
            && (forall k :: k in platformOpts ==> k in o && o[k] == platformOpts[k])
  {
  }

  /** Every fixed option keeps its value. */
  lemma ConfiguredKeepsFixed(template: string, format: string, platform: string, cookieDir: map<string, nat>)
    ensures var o := ConfigureYdlOptions(template, format, platform, cookieDir);
            forall k :: k in FixedOptions ==> k in o && o[k] == FixedOptions[k]
  {
    FixedOptionsKeys();
    LayeredKeepsFixed(FixedOptions, PlatformOptions(platform), JobOptions(template, format),
                      match CookieFile(platform, cookieDir)
                      case None => None
                      case Some(name) => Some(CookiePath(name)));
  }

  lemma LayeredKeepsFixed(fixed: Record, platformOpts: Record, jobOpts: Record, cookie: Option<string>)
    requires "cookiefile" !in fixed && "http_headers" !in fixed && "youtube_include_dash_manifest" !in fixed
    requires "outtmpl" !in fixed && "format" !in fixed
    requires platformOpts.Keys == {"http_headers", "youtube_include_dash_manifest"}
    requires jobOpts.Keys == {"outtmpl", "format"}
    ensures var o := Layered(fixed, platformOpts, jobOpts, cookie);
            forall k :: k in fixed ==> k in o && o[k] == fixed[k]
  {
  }

  /** Fixed options, then platform options, then job options, then the cookie
      file when there is one: each layer keeps what the earlier ones set for
      keys it does not name. */
  function Layered(fixed: Record, platformOpts: Record, jobOpts: Record, cookie: Option<string>): (o: Record)
    requires "cookiefile" !in fixed && "cookiefile" !in platformOpts && "cookiefile" !in jobOpts
    ensures forall k :: k in jobOpts ==> k in o && o[k] == jobOpts[k]
    ensures forall k :: k in platformOpts && k !in jobOpts ==> k in o && o[k] == platformOpts[k]
    ensures forall k :: k in fixed && k !in platformOpts && k !in jobOpts ==> k in o && o[k] == fixed[k]
    ensures "cookiefile" in o <==> cookie.Some?
    ensures "cookiefile" in o ==> o["cookiefile"] == VStr(cookie.value)
  {
    var base := fixed + platformOpts + jobOpts;
    match cookie
    case None => base
    case Some(path) => base["cookiefile" := VStr(path)]
  }

  // -------------------------------------------------------------- strategies

  /** An extraction strategy: a name and the options it lays over the base. */
  datatype Strategy = Strategy(name: string, opts: Record)

  // The per-strategy options; user agents, header sets and extractor arguments are opaque.
  const InstagramMobileOptions: Record := map[
    "user_agent" := VOther("Instagram Android app user agent"),
    "extractor_args" := VOther("instagram: comment_count 0"),
    "http_headers" := VOther("Instagram app headers"),
    "sleep_interval" := VInt(1)]
  const InstagramWebOptions: Record := map[
    "user_agent" := VOther("desktop Chrome 121 user agent"),
    "http_headers" := VOther("desktop browser headers")]
  const FacebookWebOptions: Record := map[
    "user_agent" := VOther("desktop Chrome 121 user agent"),
    "http_headers" := VOther("desktop browser headers")]
  const FacebookMobileOptions: Record := map[
    "user_agent" := VOther("iPhone Safari user agent"),
    "http_headers" := VOther("mobile browser headers")]
  const TiktokWebOptions: Record := map[
    "user_agent" := VOther("desktop Chrome 121 user agent"),
    "http_headers" := VOther("TikTok same-origin headers")]
  const TiktokMobileOptions: Record := map[
    "user_agent" := VOther("iPhone Safari user agent"),
    "http_headers" := VOther("mobile browser headers")]
  const TiktokApiOptions: Record := map[
    "extractor_args" := VOther("tiktok: api-h2.tiktokv.com, trill 34.1.2"),
    "user_agent" := VOther("TikTok Android app user agent")]
  const YoutubeAndroidOptions: Record := map[
    "extractor_args" := VOther("youtube: player_client android"),
    "user_agent" := VOther("YouTube Android app user agent")]
  const YoutubeWebOptions: Record := map[
    "extractor_args" := VOther("youtube: player_client web"),
    "user_agent" := VOther("desktop Chrome 121 user agent")]
  const YoutubeIosOptions: Record := map[
    "extractor_args" := VOther("youtube: player_client ios"),
    "user_agent" := VOther("YouTube iOS app user agent")]
  const GenericOptions: Record := map[
    "user_agent" := VOther("desktop Chrome 121 user agent"),
    "extractor_retries" := VInt(2),
    "retries" := VInt(3),
    "fragment_retries" := VInt(3),
    "http_headers" := VOther("generic browser headers")]

  /** What `_get_browser_cookie_options` can return: nothing, or the first
      detected browser as a cookie source with a desktop user agent. */
  predicate BrowserOptionsShape(b: Record) {
    b == map[] || b.Keys == {"cookiesfrombrowser", "user_agent"}
  }

  function Names(ss: seq<Strategy>): (ns: seq<string>)
    ensures |ns| == |ss| && forall i :: 0 <= i < |ss| ==> ns[i] == ss[i].name
  {
    if ss == [] then [] else [ss[0].name] + Names(ss[1..])
  }

  const Fallback: Strategy := Strategy("generic_fallback", GenericOptions)

  function InstagramStrategies(browserOpts: Record): seq<Strategy> {
    [Strategy("instagram_mobile", InstagramMobileOptions), Strategy("instagram_web", InstagramWebOptions),
     Strategy("browser_cookies", browserOpts), Fallback]
  }

  function FacebookStrategies(browserOpts: Record): seq<Strategy> {
    [Strategy("facebook_web", FacebookWebOptions), Strategy("facebook_mobile", FacebookMobileOptions),
     Strategy("browser_cookies", browserOpts), Fallback]
  }

  const TiktokStrategies: seq<Strategy> :=
    [Strategy("tiktok_web", TiktokWebOptions), Strategy("tiktok_mobile", TiktokMobileOptions),
     Strategy("tiktok_api", TiktokApiOptions), Fallback]

  const YoutubeStrategies: seq<Strategy> :=
    [Strategy("youtube_android", YoutubeAndroidOptions), Strategy("youtube_web", YoutubeWebOptions),
     Strategy("youtube_ios", YoutubeIosOptions)]

  const DefaultStrategies: seq<Strategy> := [Strategy("default", map[]), Fallback]

  /** `_get_extraction_strategies`: the ordered strategy list of a platform. */
  function ExtractionStrategies(platform: string, browserOpts: Record): (ss: seq<Strategy>)
    ensures |ss| >= 2
    ensures platform in {"instagram", "facebook", "tiktok"} ==> |ss| == 4 && ss[3] == Strategy("generic_fallback", GenericOptions)
    ensures platform == "youtube" ==> Names(ss) == ["youtube_android", "youtube_web", "youtube_ios"]
    ensures platform !in {"instagram", "facebook", "tiktok", "youtube"}
            ==> ss == [Strategy("default", map[]), Strategy("generic_fallback", GenericOptions)]
    ensures (exists i :: 0 <= i < |ss| && ss[i].name == "generic_fallback") <==> platform != "youtube"
  {
    if platform == "instagram" then
      var ss := InstagramStrategies(browserOpts);
      assert ss[3].name == "generic_fallback";
      ss
    else if platform == "facebook" then
      var ss := FacebookStrategies(browserOpts);
      assert ss[3].name == "generic_fallback";
      ss
    else if platform == "tiktok" then
      var ss := TiktokStrategies;
      assert ss[3].name == "generic_fallback";
      ss
    else if platform == "youtube" then
      var ss := YoutubeStrategies;
      assert Names(ss) == ["youtube_android", "youtube_web", "youtube_ios"];
      ss
    else
      var ss := DefaultStrategies;
      assert ss[1].name == "generic_fallback";
      ss
  }

  /** `{**base, **strategy}`: the strategy's keys win, every other base key stays. */
  function MergeOptions(base: Record, strategy: Record): (o: Record)
    ensures o.Keys == base.Keys + strategy.Keys
    ensures forall k :: k in strategy ==> o[k] == strategy[k]
    ensures forall k :: k in base && k !in strategy ==> o[k] == base[k]
  {
    base + strategy
  }

  /** The option keys a strategy sets never include the output template, the
      format, the merge format or the cookie file. */
  predicate LeavesOutputAlone(o: Record) {
    "outtmpl" !in o && "format" !in o && "cookiefile" !in o && "merge_output_format" !in o
  }

  /** Every strategy of `ss` leaves the output options alone. */
  predicate AllLeaveOutputAlone(ss: seq<Strategy>) {
    forall i :: 0 <= i < |ss| ==> LeavesOutputAlone(ss[i].opts)
  }

  lemma InstagramStrategiesLeaveOutputAlone(browserOpts: Record)
    requires LeavesOutputAlone(browserOpts)
    ensures AllLeaveOutputAlone(InstagramStrategies(browserOpts))
  {
    assert LeavesOutputAlone(InstagramMobileOptions) && LeavesOutputAlone(InstagramWebOptions);
    assert LeavesOutputAlone(GenericOptions);
  }

  lemma FacebookStrategiesLeaveOutputAlone(browserOpts: Record)
    requires LeavesOutputAlone(browserOpts)
    ensures AllLeaveOutputAlone(FacebookStrategies(browserOpts))
  {
    assert LeavesOutputAlone(FacebookWebOptions) && LeavesOutputAlone(FacebookMobileOptions);
    assert LeavesOutputAlone(GenericOptions);
  }

  lemma TiktokStrategiesLeaveOutputAlone()
    ensures AllLeaveOutputAlone(TiktokStrategies)
  {
    assert LeavesOutputAlone(TiktokWebOptions) && LeavesOutputAlone(TiktokMobileOptions);
    assert LeavesOutputAlone(TiktokApiOptions) && LeavesOutputAlone(GenericOptions);
  }

  lemma YoutubeStrategiesLeaveOutputAlone()
    ensures AllLeaveOutputAlone(YoutubeStrategies)
  {
    assert LeavesOutputAlone(YoutubeAndroidOptions) && LeavesOutputAlone(YoutubeWebOptions);
    assert LeavesOutputAlone(YoutubeIosOptions);
  }

  lemma DefaultStrategiesLeaveOutputAlone()
    ensures AllLeaveOutputAlone(DefaultStrategies)
  {
    assert LeavesOutputAlone(GenericOptions) && LeavesOutputAlone(map[]);
  }

  /** Every strategy of every platform leaves the output options alone. */
  lemma StrategyLeavesOutputAlone(platform: string, browserOpts: Record, i: nat)
    requires BrowserOptionsShape(browserOpts)
    requires i < |ExtractionStrategies(platform, browserOpts)|
    ensures LeavesOutputAlone(ExtractionStrategies(platform, browserOpts)[i].opts)
  {
    assert LeavesOutputAlone(browserOpts);
    if platform == "instagram" {
      InstagramStrategiesLeaveOutputAlone(browserOpts);
    } else if platform == "facebook" {
      FacebookStrategiesLeaveOutputAlone(browserOpts);
    } else if platform == "tiktok" {
      TiktokStrategiesLeaveOutputAlone();
    } else if platform == "youtube" {
      YoutubeStrategiesLeaveOutputAlone();
    } else {
      DefaultStrategiesLeaveOutputAlone();
    }
  }

  /** No strategy touches where the file goes, its format, or the cookie file:
      every attempt keeps those of the base options. */
  lemma StrategiesKeepOutputAndCookies(platform: string, browserOpts: Record, base: Record, i: nat)
    requires BrowserOptionsShape(browserOpts)
    requires i < |ExtractionStrategies(platform, browserOpts)|
    ensures forall k :: k in {"outtmpl", "format", "cookiefile", "merge_output_format"} && k in base
              ==> MergeOptions(base, ExtractionStrategies(platform, browserOpts)[i].opts)[k] == base[k]
  {
    StrategyLeavesOutputAlone(platform, browserOpts, i);
  }

  // ------------------------------------------------------------ the attempts

  /** What one yt-dlp call yields. */
  datatype EngineResult = Success(info: Record) | Failure(msg: string)

  /** The last error as `f"{last_error}"` prints it. */
  function LastErrorText(last: Option<string>): string {
    match last
    case None => "None"
    case Some(m) => m
  }

  const ExhaustedPrefix: string := "Unable to download video: "

  /** The strategies from `ss` on, tried in order with `last` the error of the
      previous attempt: the info of the first success, or the exhaustion error
      naming the last failure. */
  function TryStrategies(url: string, base: Record, ss: seq<Strategy>, engine: (string, Record) -> EngineResult,
                         last: Option<string>): Result<Record, string>
    decreases |ss|
  {
    if ss == [] then Err(ExhaustedPrefix + LastErrorText(last))
    else match engine(url, MergeOptions(base, ss[0].opts))
      case Success(info) => Ok(info)
      case Failure(msg) => TryStrategies(url, base, ss[1..], engine, Some(msg))
  }

  /** Whether strategy `s` succeeds. */
  predicate Succeeds(url: string, base: Record, s: Strategy, engine: (string, Record) -> EngineResult) {
    engine(url, MergeOptions(base, s.opts)).Success?
  }

  /** Index of the first strategy that succeeds, or the list length. */
  function FirstSuccess(url: string, base: Record, ss: seq<Strategy>, engine: (string, Record) -> EngineResult): (k: nat)
    ensures k <= |ss|
    ensures k < |ss| ==> Succeeds(url, base, ss[k], engine)
    ensures forall j :: 0 <= j < k ==> !Succeeds(url, base, ss[j], engine)
  {
    if ss == [] then 0
    else if Succeeds(url, base, ss[0], engine) then 0
    else 1 + FirstSuccess(url, base, ss[1..], engine)
  }

  /** The attempt sequence returns the info of the first strategy that
      succeeds; when none does, it fails with "Unable to download video: "
      followed by the last strategy's error. */
  lemma {:induction false} TryStrategiesMeaning(url: string, base: Record, ss: seq<Strategy>,
                                                engine: (string, Record) -> EngineResult, last: Option<string>)
    ensures var k := FirstSuccess(url, base, ss, engine);
            k < |ss| ==> TryStrategies(url, base, ss, engine, last) == Ok(engine(url, MergeOptions(base, ss[k].opts)).info)
    ensures var k := FirstSuccess(url, base, ss, engine);
            k == |ss| && ss != [] ==>
              TryStrategies(url, base, ss, engine, last)
              == Err(ExhaustedPrefix + engine(url, MergeOptions(base, ss[|ss| - 1].opts)).msg)
    decreases |ss|
  {
    if ss != [] && !Succeeds(url, base, ss[0], engine) {
      var msg := engine(url, MergeOptions(base, ss[0].opts)).msg;
      TryStrategiesMeaning(url, base, ss[1..], engine, Some(msg));
      if ss[1..] == [] {
        assert TryStrategies(url, base, ss[1..], engine, Some(msg)) == Err(ExhaustedPrefix + msg);
      } else {
        assert ss[1..][|ss[1..]| - 1] == ss[|ss| - 1];
      }
    }
  }

  /** How many strategies get called: up to and including the first success. */
  function AttemptCount(url: string, base: Record, ss: seq<Strategy>, engine: (string, Record) -> EngineResult): (n: nat)
    ensures n <= |ss|
  {
    var k := FirstSuccess(url, base, ss, engine);
    if k < |ss| then k + 1 else |ss|
  }

  /** The loop of `_perform_download`: each strategy in order, its options
      laid over `ydlOpts`, until one succeeds. `tried` lists the strategies
      called, in order: none after the first success is called. */
  method TryInOrder(url: string, ydlOpts: Record, strategies: seq<Strategy>, engine: (string, Record) -> EngineResult)
    returns (r: Result<Record, string>, tried: seq<string>)
    ensures r == TryStrategies(url, ydlOpts, strategies, engine, None)
    ensures tried == Names(strategies[..AttemptCount(url, ydlOpts, strategies, engine)])
  {
    var lastError: Option<string> := None;
    tried := [];
    var i := 0;
    while i < |strategies|
      invariant 0 <= i <= |strategies|
      invariant TryStrategies(url, ydlOpts, strategies, engine, None)
                == TryStrategies(url, ydlOpts, strategies[i..], engine, lastError)
      invariant FirstSuccess(url, ydlOpts, strategies, engine) >= i
      invariant tried == Names(strategies[..i])
    {
      var finalOpts := MergeOptions(ydlOpts, strategies[i].opts);
      tried := tried + [strategies[i].name];
      NamesSnoc(strategies[..i], strategies[i]);
      assert strategies[..i + 1] == strategies[..i] + [strategies[i]];
      var outcome := engine(url, finalOpts);
      if outcome.Success? {
        FirstSuccessAt(url, ydlOpts, strategies, engine, i);
        return Ok(outcome.info), tried;
      }
      lastError := Some(outcome.msg);
      assert strategies[i..][1..] == strategies[i + 1..];
      i := i + 1;
    }
    assert strategies[i..] == [];
    assert strategies[..i] == strategies;
    r := Err(ExhaustedPrefix + LastErrorText(lastError));
  }

  lemma {:induction false} NamesSnoc(ss: seq<Strategy>, s: Strategy)
    ensures Names(ss + [s]) == Names(ss) + [s.name]
  {
    assert |Names(ss + [s])| == |Names(ss) + [s.name]|;
  }

  /** `_perform_download`: the strategies of the URL's platform, tried in order.
      The download type does not change the call. */
  method PerformDownload(url: string, ydlOpts: Record, downloadType: string,
                         engine: (string, Record) -> EngineResult, browserOpts: Record)
    returns (r: Result<Record, string>, tried: seq<string>)
    ensures var ss := ExtractionStrategies(ValidateUrlPlatform(url).platform, browserOpts);
            r == TryStrategies(url, ydlOpts, ss, engine, None)
            && tried == Names(ss[..AttemptCount(url, ydlOpts, ss, engine)])
  {
    var platform := ValidateUrlPlatform(url).platform;
    var strategies := ExtractionStrategies(platform, browserOpts);
    r, tried := TryInOrder(url, ydlOpts, strategies, engine);
  }

  /** The first success is at `i` when strategy `i` succeeds and none before it did. */
  lemma {:induction false} FirstSuccessAt(url: string, base: Record, ss: seq<Strategy>,
                                          engine: (string, Record) -> EngineResult, i: nat)
    requires i < |ss| && Succeeds(url, base, ss[i], engine) && FirstSuccess(url, base, ss, engine) >= i
    ensures FirstSuccess(url, base, ss, engine) == i
  {
  }

  // ------------------------------------------------------- the record updates

  const ProcessingUpdate: Record := map["status" := VStr("processing"), "message" := VStr("Downloading video...")]

  /** The failure fields, from the classifier's view of the error text. */
  function FailedUpdate(error: string): (u: Record)
    ensures u.Keys == {"status", "message", "error_category", "suggestion"}
    ensures u["status"] == VStr("failed")
    ensures u["error_category"] == VStr(CategoryName(Category(error)))
    ensures u["message"] == VStr(UserMessage(Category(error)))
    ensures u["suggestion"] == VStr(Suggestion(Category(error)))
  {
    var c := Category(error);
    map["status" := VStr("failed"), "message" := VStr(UserMessage(c)),
        "error_category" := VStr(CategoryName(c)), "suggestion" := VStr(Suggestion(c))]
  }

  const RetentionSeconds: int := 5 * 3600

  /** `_update_download_status` for one downloaded file, at instant `now`:
      the fields naming the download, and the fields taken from the info. */
  function CompletedUpdate(taskId: string, info: Record, filename: string, now: int): Record {
    InfoFields(info) + DownloadFields(taskId, Get(info, "title", VStr("Unknown Video")), filename, now)
  }

  const DownloadFieldNames: set<string> := {"status", "message", "download_url", "filename", "expires_at", "created_at"}

  /** The fields of a completed record that name the download. */
  function DownloadFields(taskId: string, title: Value, filename: string, now: int): (u: Record)
    ensures u.Keys == DownloadFieldNames
    ensures u["status"] == VStr("completed") && u["filename"] == VStr(filename)
    ensures u["download_url"] == VStr("/api/v1/download/" + taskId)
    ensures u["expires_at"] == VTime(now + RetentionSeconds) && u["created_at"] == VTime(now)
  {
    map[
      "status" := VStr("completed"),
      "message" := VStr("Video downloaded successfully: " + Str(title)),
      "download_url" := VStr("/api/v1/download/" + taskId),
      "filename" := VStr(filename),
      "expires_at" := VTime(now + RetentionSeconds),
      "created_at" := VTime(now)
    ]
  }

  const InfoFieldNames: set<string> := {"title", "url", "duration", "format", "thumbnail"}

  /** The fields of a completed record copied from the engine's info, with their defaults. */
  function InfoFields(info: Record): (u: Record)
    ensures u.Keys == InfoFieldNames
    ensures u["title"] == Get(info, "title", VStr("Unknown Video"))
    ensures u["url"] == (if Truthy(Get(info, "url", VNone)) then info["url"] else Get(info, "webpage_url", VNone))
  {
    var url := Get(info, "url", VNone);
    map[
      "title" := Get(info, "title", VStr("Unknown Video")),
      "url" := if Truthy(url) then url else Get(info, "webpage_url", VNone),
      "duration" := Get(info, "duration", VInt(0)),
      "format" := Get(info, "ext", VStr("mp4")),
      "thumbnail" := Get(info, "thumbnail", VNone)
    ]
  }

  /** The store after `_update_download_status` for each file in turn. */
  function Completions(m: map<string, Record>, taskId: string, info: Record, files: seq<string>, now: int): (r: map<string, Record>)
    ensures r.Keys == m.Keys
  {
    if files == [] then m
    else Merged(Completions(m, taskId, info, files[..|files| - 1], now), taskId,
                CompletedUpdate(taskId, info, files[|files| - 1], now))
  }

  /** Several matching files leave the record of the last one processed: every
      update writes the same fields, so each overwrites the one before. */
  lemma {:induction false} LastFileDecides(m: map<string, Record>, taskId: string, info: Record, files: seq<string>, now: int)
    requires taskId in m && files != []
    ensures Completions(m, taskId, info, files, now)[taskId]
            == m[taskId] + CompletedUpdate(taskId, info, files[|files| - 1], now)
    ensures forall id :: id in m && id != taskId ==> Completions(m, taskId, info, files, now)[id] == m[id]
    decreases |files|
  {
    var init := files[..|files| - 1];
    if init != [] {
      LastFileDecides(m, taskId, info, init, now);
      var u1 := CompletedUpdate(taskId, info, init[|init| - 1], now);
      var u2 := CompletedUpdate(taskId, info, files[|files| - 1], now);
      OverwriteSameKeys(m[taskId], u1, u2);
    }
  }

  /** An update that writes every key of an earlier one hides it completely. */
  lemma OverwriteSameKeys(a: Record, u1: Record, u2: Record)
    requires u1.Keys <= u2.Keys
    ensures (a + u1) + u2 == a + u2
  {
  }

  /** Names of the directory entries the glob `<prefix>*` matches, in listing order. */
  function Matching(listing: seq<string>, prefix: string): (r: seq<string>)
    ensures forall x :: x in r <==> x in listing && StartsWith(x, prefix)
    ensures |r| <= |listing|
  {
    if listing == [] then []
    else if StartsWith(listing[0], prefix) then [listing[0]] + Matching(listing[1..], prefix)
    else Matching(listing[1..], prefix)
  }

  const FileNotFoundMessage: string := "Downloaded file not found"

  /** The whole effect of `download_video` on the store, given the outcome of
      the attempts and the names the glob matched. */
  function DownloadOutcome(m: map<string, Record>, taskId: string, attempt: Result<Record, string>,
                           matching: seq<string>, now: int): (r: map<string, Record>)
    ensures r.Keys == m.Keys
  {
    AfterAttempt(Merged(m, taskId, ProcessingUpdate), taskId, attempt, matching, now)
  }

  /** The updates `download_video` makes once the attempts are over. */
  function AfterAttempt(m: map<string, Record>, taskId: string, attempt: Result<Record, string>,
                        matching: seq<string>, now: int): (r: map<string, Record>)
    ensures r.Keys == m.Keys
  {
    if attempt.Err? then Merged(m, taskId, FailedUpdate(attempt.error))
    else if matching == [] then Merged(m, taskId, FailedUpdate(FileNotFoundMessage))
    else Completions(m, taskId, attempt.value, matching, now)
  }

  /** The glob prefix of a job's files. */
  function FilePrefix(taskId: string, timestamp: string): string { taskId + "_" + timestamp + "_" }

  /** The output template of a job's files. */
  function FilenameTemplate(taskId: string, timestamp: string): string {
    FilePrefix(taskId, timestamp) + "%(title)s.%(ext)s"
  }

  /** The outcome of the attempts for a job. */
  function JobAttempt(url: string, taskId: string, quality: string, timestamp: string,
                      engine: (string, Record) -> EngineResult, browserOpts: Record, cookieDir: map<string, nat>): Result<Record, string>
  {
    var platform := ValidateUrlPlatform(url).platform;
    var opts := ConfigureYdlOptions(FilenameTemplate(taskId, timestamp), FormatString(quality), platform, cookieDir);
    TryStrategies(url, opts, ExtractionStrategies(platform, browserOpts), engine, None)
  }

  /** `download_video`: mark the job processing, run the attempts with the
      options for its quality and platform, then record each matching file,
      or record the failure. `timestamp` is the filename time stamp and
      `filesAfter` the downloads directory listing after the attempts. */
  method DownloadVideo(store: DownloadStorage, url: string, taskId: string, downloadType: string, quality: string,
                       engine: (string, Record) -> EngineResult, browserOpts: Record, cookieDir: map<string, nat>,
                       timestamp: string, filesAfter: seq<string>, now: int)
    modifies store
    ensures store.storage == DownloadOutcome(old(store.storage), taskId,
                                             JobAttempt(url, taskId, quality, timestamp, engine, browserOpts, cookieDir),
                                             Matching(filesAfter, FilePrefix(taskId, timestamp)), now)
  {
    store.UpdateStatus(taskId, ProcessingUpdate);
    var format := FormatString(quality);
    var platform := ValidateUrlPlatform(url).platform;
    var opts := ConfigureYdlOptions(FilenameTemplate(taskId, timestamp), format, platform, cookieDir);
    var attempt, _ := PerformDownload(url, opts, downloadType, engine, browserOpts);
    RecordAttempt(store, taskId, attempt, Matching(filesAfter, FilePrefix(taskId, timestamp)), now);
  }

  /** The failure, the missing file, or each matching file, recorded. */
  method RecordAttempt(store: DownloadStorage, taskId: string, attempt: Result<Record, string>,
                       files: seq<string>, now: int)
    modifies store
    ensures store.storage == AfterAttempt(old(store.storage), taskId, attempt, files, now)
  {
    if attempt.Err? {
      store.UpdateStatus(taskId, FailedUpdate(attempt.error));
      return;
    }
    if files == [] {
      store.UpdateStatus(taskId, FailedUpdate(FileNotFoundMessage));
      return;
    }
    RecordFiles(store, taskId, attempt.value, files, now);
  }

  /** The loop over the matching files of `download_video`. */
  method RecordFiles(store: DownloadStorage, taskId: string, info: Record, files: seq<string>, now: int)
    modifies store
    ensures store.storage == Completions(old(store.storage), taskId, info, files, now)
  {
    var i := 0;
    while i < |files|
      invariant 0 <= i <= |files|
      invariant store.storage == Completions(old(store.storage), taskId, info, files[..i], now)
    {
      RecordFile(store, old(store.storage), taskId, info, files, i, now);
      i := i + 1;
    }
    assert files[..i] == files;
  }

  /** One pass of the loop: the update for `files[i]`. */
  method RecordFile(store: DownloadStorage, ghost m: map<string, Record>, taskId: string, info: Record,
                    files: seq<string>, i: nat, now: int)
    requires i < |files| && store.storage == Completions(m, taskId, info, files[..i], now)
    modifies store
    ensures store.storage == Completions(m, taskId, info, files[..i + 1], now)
  {
    CompletionsSnoc(m, taskId, info, files, i, now);
    store.UpdateStatus(taskId, CompletedUpdate(taskId, info, files[i], now));
  }

  lemma CompletionsSnoc(m: map<string, Record>, taskId: string, info: Record, files: seq<string>, i: nat, now: int)
    requires i < |files|
    ensures Completions(m, taskId, info, files[..i + 1], now)
            == Merged(Completions(m, taskId, info, files[..i], now), taskId, CompletedUpdate(taskId, info, files[i], now))
  {
    assert files[..i + 1][..i] == files[..i];
  }

  // ----------------------------------------------------------- what it means

  /** A failed download leaves the record `failed`, with the category and
      texts the classifier gives for the error, and every other field kept. */
  lemma FailureIsCategorised(m: map<string, Record>, taskId: string, error: string, matching: seq<string>, now: int)
    requires taskId in m
    ensures var r := DownloadOutcome(m, taskId, Err(error), matching, now)[taskId];
            r["status"] == VStr("failed")
            && r["error_category"] == VStr(CategoryName(Category(error)))
            && r["message"] == VStr(UserMessage(Category(error)))
            && r["suggestion"] == VStr(Suggestion(Category(error)))
            && forall f :: f in m[taskId] && f !in FailedUpdate(error) && f !in ProcessingUpdate ==> r[f] == m[taskId][f]
  {
  }

  /** A successful download of at least one file leaves the record
      `completed`, served from `/api/v1/download/<id>`, named after the last
      matching file and expiring five hours after `now`. */
  lemma CompletionIsRecorded(m: map<string, Record>, taskId: string, info: Record, matching: seq<string>, now: int)
    requires taskId in m && matching != []
    ensures var r := DownloadOutcome(m, taskId, Ok(info), matching, now)[taskId];
            r["status"] == VStr("completed")
            && r["download_url"] == VStr("/api/v1/download/" + taskId)
            && r["filename"] == VStr(matching[|matching| - 1])
            && r["expires_at"] == VTime(now + RetentionSeconds)
  {
    LastFileDecides(Merged(m, taskId, ProcessingUpdate), taskId, info, matching, now);
  }

  /** A job whose record is gone (or never existed) is never recreated. */
  lemma {:induction false} UnknownJobUntouched(m: map<string, Record>, taskId: string, attempt: Result<Record, string>,
                                               matching: seq<string>, now: int)
    requires taskId !in m
    ensures DownloadOutcome(m, taskId, attempt, matching, now) == m
  {
    if attempt.Ok? && matching != [] {
      CompletionsOfUnknown(m, taskId, attempt.value, matching, now);
    }
  }

  lemma {:induction false} CompletionsOfUnknown(m: map<string, Record>, taskId: string, info: Record, files: seq<string>, now: int)
    requires taskId !in m
    ensures Completions(m, taskId, info, files, now) == m
    decreases |files|
  {
    if files != [] {
      CompletionsOfUnknown(m, taskId, info, files[..|files| - 1], now);
    }
  }

  /** The text of the missing-file exception is classified VIDEO_NOT_FOUND. */
  lemma MissingFileIsNotFound()
    ensures Category(FileNotFoundMessage) == VideoNotFound
  {
    var s := "downloaded file not found";
    assert Lower(FileNotFoundMessage) == s;
    NoRuleBeforeNotFound(s);
    NotFoundRuleHolds(s);
    FirstRuleIsUnique(s, 18);
    NamedRanks();
    RankInjective(Category(FileNotFoundMessage), VideoNotFound);
  }

  /** Rule 18, the not-found rule, holds of the missing-file text. */
  lemma NotFoundRuleHolds(s: string)
    requires s == "downloaded file not found"
    ensures Holds(RuleAt(18).test, s)
  {
    assert s[16..25] == "not found";
    assert OccursAt(s, "not found", 16);
    assert Holds(Has("not found"), s);
  }

  /** Letters the missing-file text does not contain. */
  lemma NotFoundLacksA(s: string)
    requires s == "downloaded file not found"
    ensures 's' !in s && 'b' !in s && 'k' !in s && 'y' !in s && 'p' !in s
  {
  }

  lemma NotFoundLacksB(s: string)
    requires s == "downloaded file not found"
    ensures 'v' !in s && 'g' !in s && 'r' !in s && 'c' !in s && 'm' !in s
  {
  }

  /** None of the eighteen rules before VIDEO_NOT_FOUND holds of the missing-file text. */
  lemma NoRuleBeforeNotFound(s: string)
    requires s == "downloaded file not found"
    ensures forall j :: 0 <= j < 18 ==> !Holds(RuleAt(j).test, s)
  {
    NotFoundLacksA(s);
    NotFoundLacksB(s);
    SocialRulesMiss(s);
    YoutubeRulesMiss(s);
    PrivacyRulesMiss(s);
    ContentRulesMiss(s);
  }

  lemma SocialRulesMiss(s: string)
    requires 's' !in s && 'b' !in s && 'k' !in s
    ensures forall j :: 0 <= j < 6 ==> !Holds(TestAt(j), s)
  {
    MissingCharExcludes(s, "instagram sent an empty media response", 's');
    MissingCharExcludes(s, "instagram", 's');
    MissingCharExcludes(s, "facebook", 'b');
    MissingCharExcludes(s, "unsupported url", 's');
    MissingCharExcludes(s, "tiktok", 'k');
  }

  lemma YoutubeRulesMiss(s: string)
    requires 's' !in s && 'y' !in s
    ensures forall j :: 6 <= j < 12 ==> !Holds(TestAt(j), s)
  {
    MissingCharExcludes(s, "youtube", 'y');
    MissingCharExcludes(s, "secretstorage not available", 's');
  }

  lemma PrivacyRulesMiss(s: string)
    requires 'p' !in s && 'v' !in s && 'g' !in s && 'r' !in s && 'c' !in s
    ensures forall j :: 12 <= j < 15 ==> !Holds(TestAt(j), s)
  {
    MissingCharExcludes(s, "private", 'p');
    MissingCharExcludes(s, "unavailable", 'v');
    MissingCharExcludes(s, "geo", 'g');
    MissingCharExcludes(s, "region", 'r');
    MissingCharExcludes(s, "country", 'c');
    MissingCharExcludes(s, "age", 'g');
    MissingCharExcludes(s, "restricted", 'r');
    assert !Holds(Either(Has("region"), Has("country")), s);
  }

  lemma ContentRulesMiss(s: string)
    requires 'v' !in s && 'r' !in s && 'c' !in s && 'm' !in s
    ensures forall j :: 15 <= j < 18 ==> !Holds(TestAt(j), s)
  {
    MissingCharExcludes(s, "copyright", 'c');
    MissingCharExcludes(s, "dmca", 'm');
    MissingCharExcludes(s, "format", 'r');
    MissingCharExcludes(s, "no video", 'v');
    MissingCharExcludes(s, "network", 'r');
    MissingCharExcludes(s, "timeout", 'm');
    MissingCharExcludes(s, "connection", 'c');
    assert !Holds(Either(Has("timeout"), Has("connection")), s);
  }
}
