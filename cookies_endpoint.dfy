/** The cookie upload endpoint of app/api/endpoints/cookies.py.

    The platform name is normalised and checked against the six platforms
    that take cookies; the upload is written to that platform's cookie file
    and then validated, and a file that does not validate is removed again.
    The cookie directory is a map from file name to contents. */
module CookiesEndpoint {
  import opened Common
  import opened DownloadService

  type Bytes = seq<bv8>

  /** The cookie directory: file name to contents. */
  type CookieDir = map<string, Bytes>

  const SupportedPlatforms: set<string> := {"youtube", "instagram", "tiktok", "twitter", "facebook", "vimeo"}

  /** The destination file of each supported platform. */
  const FilenameMap: map<string, string> := map[
    "youtube" := "youtube.com_cookies.txt",
    "instagram" := "instagram.com_cookies.txt",
    "tiktok" := "tiktok.com_cookies.txt",
    "twitter" := "twitter.com_cookies.txt",
    "facebook" := "facebook.com_cookies.txt",
    "vimeo" := "vimeo.com_cookies.txt"]

  /** `platform.lower().strip()` */
  function NormalisePlatform(platform: string): string {
    Strip(Lower(platform))
  }

  /** Normalising twice changes nothing more: the result has no upper-case
      letter and no whitespace at either end. */
  lemma NormaliseIsIdempotent(platform: string)
    ensures NormalisePlatform(NormalisePlatform(platform)) == NormalisePlatform(platform)
  {
    var x := Lower(platform);
    var y := Strip(x);
    StripIsContained(x);
    ContainedCharsOccur(x, y);
    forall i | 0 <= i < |y| ensures !('A' <= y[i] <= 'Z') {
      var j :| 0 <= j < |x| && x[j] == y[i];
    }
    LowerOfLowercase(y);
    if y != [] {
      StripOfUnspaced(y);
    }
  }

  /** The six destination names spelled as platform and suffix. */
  lemma ComCookieNames()
    ensures "youtube" + ".com_cookies.txt" == "youtube.com_cookies.txt"
    ensures "instagram" + ".com_cookies.txt" == "instagram.com_cookies.txt"
    ensures "tiktok" + ".com_cookies.txt" == "tiktok.com_cookies.txt"
    ensures "twitter" + ".com_cookies.txt" == "twitter.com_cookies.txt"
    ensures "facebook" + ".com_cookies.txt" == "facebook.com_cookies.txt"
    ensures "vimeo" + ".com_cookies.txt" == "vimeo.com_cookies.txt"
  {
  }

  /** Every supported platform, and only those, has a destination, and it is
      `<platform>.com_cookies.txt`. */
  lemma DestinationNames(p: string)
    ensures p in FilenameMap <==> p in SupportedPlatforms
    ensures p in FilenameMap ==> FilenameMap[p] == p + ".com_cookies.txt"
  {
    assert FilenameMap.Keys == SupportedPlatforms;
    ComCookieNames();
    if p == "youtube" {
      assert FilenameMap[p] == "youtube.com_cookies.txt";
    } else if p == "instagram" {
      assert FilenameMap[p] == "instagram.com_cookies.txt";
    } else if p == "tiktok" {
      assert FilenameMap[p] == "tiktok.com_cookies.txt";
    } else if p == "twitter" {
      assert FilenameMap[p] == "twitter.com_cookies.txt";
    } else if p == "facebook" {
      assert FilenameMap[p] == "facebook.com_cookies.txt";
    } else if p == "vimeo" {
      assert FilenameMap[p] == "vimeo.com_cookies.txt";
    }
  }

  /** The destination is the first file the download service looks for on
      that platform, and the platforms that take uploads are exactly those
      the service has cookie candidates for. */
  lemma DestinationIsFirstCandidate(p: string)
    ensures p in SupportedPlatforms <==> CookieCandidates(p).Some?
    ensures p in SupportedPlatforms ==> CookieCandidates(p).value[0] == FilenameMap[p]
  {
  }

  /** The body of a successful upload. */
  datatype UploadReply = UploadReply(status: string, platform: string, path: string, size: nat)

  function UnsupportedDetail(p: string): string { "Unsupported platform: " + p }

  const WriteFailedDetail: string := "Failed to save cookie file"
  const InvalidCookieDetail: string := "Invalid cookie file format"
  const MissingValidatorDetail: string := "AttributeError: 'DownloadService' object has no attribute '_is_valid_cookie_file'"

  /** `upload_cookies` as written: after the file is written it calls a
      validator DownloadService does not define, so the call ends with 500
      and the written file stays. `writeFails` says whether `write_bytes`
      raises. */
  method UploadCookiesAsWritten(dir: CookieDir, platform: string, content: Bytes, writeFails: bool)
    returns (r: Result<UploadReply, HttpError>, dirAfter: CookieDir)
    ensures var p := NormalisePlatform(platform);
            && (p !in SupportedPlatforms ==> r == Err(HttpError(400, UnsupportedDetail(p))) && dirAfter == dir)
            && (p in SupportedPlatforms && writeFails ==> r == Err(HttpError(500, WriteFailedDetail)) && dirAfter == dir)
            && (p in SupportedPlatforms && !writeFails ==>
                  r == Err(HttpError(500, MissingValidatorDetail)) && dirAfter == dir[p + ".com_cookies.txt" := content])
    ensures r.Err?
  {
    var p := NormalisePlatform(platform);
    if p !in SupportedPlatforms {
      return Err(HttpError(400, UnsupportedDetail(p))), dir;
    }
    DestinationNames(p);
    var dest := FilenameMap[p];
    if writeFails {
      return Err(HttpError(500, WriteFailedDetail)), dir;
    }
    dirAfter := dir[dest := content];
    r := Err(HttpError(500, MissingValidatorDetail));
  }

  /** What an upload for the normalised platform `p` leads to, when `dest`
      is its cookie file if it takes cookies: the answer and the cookie
      directory after it. `valid` is the cookie file check, `writeFails` and
      `unlinkFails` say whether writing or removing the file raises; a
      failed removal is ignored. */
  function UploadTo(dir: CookieDir, p: string, dest: Option<string>, content: Bytes, writeFails: bool,
                    unlinkFails: bool, valid: Bytes -> bool): (Result<UploadReply, HttpError>, CookieDir)
  {
    if dest.None? then (Err(HttpError(400, UnsupportedDetail(p))), dir)
    else if writeFails then (Err(HttpError(500, WriteFailedDetail)), dir)
    else
      var written := dir[dest.value := content];
      if !valid(content) then
        (Err(HttpError(400, InvalidCookieDetail)), if unlinkFails then written else written - {dest.value})
      else (Ok(UploadReply("ok", p, CookiePath(dest.value), |content|)), written)
  }

  /** What an upload of `content` for `platform` leads to. */
  function UploadOutcome(dir: CookieDir, platform: string, content: Bytes, writeFails: bool, unlinkFails: bool,
                         valid: Bytes -> bool): (Result<UploadReply, HttpError>, CookieDir)
  {
    var p := NormalisePlatform(platform);
    UploadTo(dir, p, Lookup(FilenameMap, p), content, writeFails, unlinkFails, valid)
  }

  /** The cookie file of a normalised platform, when it takes cookies. */
  lemma DestinationOf(p: string)
    ensures p in SupportedPlatforms ==> Lookup(FilenameMap, p) == Some(p + ".com_cookies.txt")
    ensures p !in SupportedPlatforms ==> Lookup(FilenameMap, p) == None
  {
    DestinationNames(p);
  }

  /** `upload_cookies` with the cookie file check in place. */
  method UploadCookies(dir: CookieDir, platform: string, content: Bytes, writeFails: bool, unlinkFails: bool,
                       valid: Bytes -> bool)
    returns (r: Result<UploadReply, HttpError>, dirAfter: CookieDir)
    ensures (r, dirAfter) == UploadOutcome(dir, platform, content, writeFails, unlinkFails, valid)
  {
    var p := NormalisePlatform(platform);
    ghost var outcome := UploadTo(dir, p, Lookup(FilenameMap, p), content, writeFails, unlinkFails, valid);
    assert outcome == UploadOutcome(dir, platform, content, writeFails, unlinkFails, valid);
    DestinationOf(p);
    if p !in SupportedPlatforms {
      return Err(HttpError(400, UnsupportedDetail(p))), dir;
    }
    DestinationNames(p);
    var dest := FilenameMap[p];
    assert Lookup(FilenameMap, p) == Some(dest);
    if writeFails {
      return Err(HttpError(500, WriteFailedDetail)), dir;
    }
    dirAfter := dir[dest := content];
    if !valid(content) {
      if !unlinkFails {
        dirAfter := dirAfter - {dest};
      }
      return Err(HttpError(400, InvalidCookieDetail)), dirAfter;
    }
    r := Ok(UploadReply("ok", p, CookiePath(dest), |content|));
  }

  /** An upload is accepted exactly when the normalised platform is
      supported, the write succeeds and the content validates; it then
      reports the normalised platform and the size of the content, and the
      platform's cookie file holds that content. */
  lemma {:induction false} AcceptedUpload(dir: CookieDir, platform: string, content: Bytes, writeFails: bool,
                                          unlinkFails: bool, valid: Bytes -> bool)
    ensures var out := UploadOutcome(dir, platform, content, writeFails, unlinkFails, valid);
            var p := NormalisePlatform(platform);
            && (out.0.Ok? <==> p in SupportedPlatforms && !writeFails && valid(content))
            && (out.0.Ok? ==> out.0.value == UploadReply("ok", p, "cookies/" + p + ".com_cookies.txt", |content|)
                              && out.1 == dir[p + ".com_cookies.txt" := content])
  {
    var p := NormalisePlatform(platform);
    DestinationOf(p);
    var dest := Lookup(FilenameMap, p);
    var out := UploadTo(dir, p, dest, content, writeFails, unlinkFails, valid);
    assert UploadOutcome(dir, platform, content, writeFails, unlinkFails, valid) == out;
    if out.0.Ok? {
      assert CookiePath(dest.value) == "cookies/" + p + ".com_cookies.txt";
    }
  }

  /** An upload changes no file but its platform's cookie file. */
  lemma {:induction false} UploadTouchesOneFile(dir: CookieDir, platform: string, content: Bytes, writeFails: bool,
                                                unlinkFails: bool, valid: Bytes -> bool, n: string)
    requires n in dir && n != NormalisePlatform(platform) + ".com_cookies.txt"
    ensures var after := UploadOutcome(dir, platform, content, writeFails, unlinkFails, valid).1;
            n in after && after[n] == dir[n]
  {
    var p := NormalisePlatform(platform);
    DestinationOf(p);
    var dest := Lookup(FilenameMap, p);
    var after := UploadTo(dir, p, dest, content, writeFails, unlinkFails, valid).1;
    assert UploadOutcome(dir, platform, content, writeFails, unlinkFails, valid).1 == after;
    if dest.Some? && !writeFails {
      assert n != dest.value;
      var written := dir[dest.value := content];
      assert n in written && written[n] == dir[n];
      assert n in written - {dest.value} && (written - {dest.value})[n] == dir[n];
    }
  }

  /** Nothing is written for an unsupported platform or a failed write. */
  lemma {:induction false} RefusedUploadChangesNothing(dir: CookieDir, platform: string, content: Bytes,
                                                       writeFails: bool, unlinkFails: bool, valid: Bytes -> bool)
    requires NormalisePlatform(platform) !in SupportedPlatforms || writeFails
    ensures var out := UploadOutcome(dir, platform, content, writeFails, unlinkFails, valid);
            && (NormalisePlatform(platform) !in SupportedPlatforms ==>
                  out.0 == Err(HttpError(400, UnsupportedDetail(NormalisePlatform(platform)))))
            && out.0.Err? && out.1 == dir
  {
    var p := NormalisePlatform(platform);
    DestinationOf(p);
    var out := UploadTo(dir, p, Lookup(FilenameMap, p), content, writeFails, unlinkFails, valid);
    assert UploadOutcome(dir, platform, content, writeFails, unlinkFails, valid) == out;
  }

  /** A rejected upload is answered 400 and removed again unless the removal
      fails, taking with it any earlier file of that platform. */
  lemma {:induction false} RejectedUploadIsRemoved(dir: CookieDir, platform: string, content: Bytes,
                                                   unlinkFails: bool, valid: Bytes -> bool)
    requires NormalisePlatform(platform) in SupportedPlatforms && !valid(content)
    ensures var out := UploadOutcome(dir, platform, content, false, unlinkFails, valid);
            var dest := NormalisePlatform(platform) + ".com_cookies.txt";
            && out.0 == Err(HttpError(400, InvalidCookieDetail))
            && (!unlinkFails ==> out.1 == dir - {dest})
            && (unlinkFails ==> out.1 == dir[dest := content])
  {
    var p := NormalisePlatform(platform);
    DestinationOf(p);
    var dest := p + ".com_cookies.txt";
    var out := UploadTo(dir, p, Some(dest), content, false, unlinkFails, valid);
    assert UploadOutcome(dir, platform, content, false, unlinkFails, valid) == out;
    assert dir[dest := content] - {dest} == dir - {dest};
  }

  /** The size of each file in the cookie directory. */
  function Sizes(dir: CookieDir): (s: map<string, nat>)
    ensures s.Keys == dir.Keys
    ensures forall n :: n in s ==> s[n] == |dir[n]|
  {
    map n | n in dir :: |dir[n]|
  }

  /** An accepted upload of more than 100 bytes is the cookie file the
      download service then uses for that platform. */
  lemma {:induction false} AcceptedUploadIsUsed(dir: CookieDir, platform: string, content: Bytes, unlinkFails: bool,
                                                valid: Bytes -> bool)
    requires |content| > 100
    requires UploadOutcome(dir, platform, content, false, unlinkFails, valid).0.Ok?
    ensures var p := NormalisePlatform(platform);
            CookieFile(p, Sizes(UploadOutcome(dir, platform, content, false, unlinkFails, valid).1))
            == Some(p + ".com_cookies.txt")
  {
    var p := NormalisePlatform(platform);
    AcceptedUpload(dir, platform, content, false, unlinkFails, valid);
    DestinationNames(p);
    DestinationIsFirstCandidate(p);
    var after := dir[p + ".com_cookies.txt" := content];
    assert UploadOutcome(dir, platform, content, false, unlinkFails, valid).1 == after;
    assert Usable(Sizes(after), p + ".com_cookies.txt");
    CookieFileIsFirstUsable(p, Sizes(after), 0);
  }
}
