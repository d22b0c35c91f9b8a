/** The closed enumerations and the request, response and status schemas of
    app/models/download.py. The enumerations travel through records and
    options as their string values; `...Value` gives that string and
    `Parse...` recognises it. */
module Models {
  import opened Common

  datatype DownloadType = Single | Playlist | Album

  function DownloadTypeValue(t: DownloadType): string {
    match t
    case Single => "single"
    case Playlist => "playlist"
    case Album => "album"
  }

  /** `str.title()` of the value, as used in the initiation message. */
  function DownloadTypeTitle(t: DownloadType): string {
    match t
    case Single => "Single"
    case Playlist => "Playlist"
    case Album => "Album"
  }

  /** `DownloadType(s)`: the member whose value is `s`, if any. */
  function ParseDownloadType(s: string): (r: Option<DownloadType>)
    ensures r.Some? <==> s in {"single", "playlist", "album"}
  {
    if s == "single" then Some(Single)
    else if s == "playlist" then Some(Playlist)
    else if s == "album" then Some(Album)
    else None
  }

  lemma {:induction false} DownloadTypeRoundTrip(t: DownloadType, s: string)
    ensures ParseDownloadType(s) == Some(t) <==> DownloadTypeValue(t) == s
  {
  }

  datatype VideoQuality = Low | Medium | High | VeryHigh | Ultra | Max

  function QualityValue(q: VideoQuality): string {
    match q
    case Low => "360p"
    case Medium => "480p"
    case High => "720p"
    case VeryHigh => "1080p"
    case Ultra => "1440p"
    case Max => "best"
  }

  /** `VideoQuality(s)`: the member whose value is `s`, if any. */
  function ParseQuality(s: string): (r: Option<VideoQuality>)
    ensures r.Some? <==> s in {"360p", "480p", "720p", "1080p", "1440p", "best"}
  {
    if s == "360p" then Some(Low)
    else if s == "480p" then Some(Medium)
    else if s == "720p" then Some(High)
    else if s == "1080p" then Some(VeryHigh)
    else if s == "1440p" then Some(Ultra)
    else if s == "best" then Some(Max)
    else None
  }

  lemma {:induction false} QualityRoundTrip(q: VideoQuality, s: string)
    ensures ParseQuality(s) == Some(q) <==> QualityValue(q) == s
  {
  }

  /** The body of a download request. */
  datatype VideoDownloadRequest = VideoDownloadRequest(url: string, downloadType: DownloadType, quality: VideoQuality)

  /** A request that names only its URL takes the declared defaults. */
  function RequestWithDefaults(url: string): (r: VideoDownloadRequest)
    ensures r.url == url && r.downloadType == Single && r.quality == High
    ensures DownloadTypeValue(r.downloadType) == "single" && QualityValue(r.quality) == "720p"
  {
    VideoDownloadRequest(url, Single, High)
  }

  /** The answer to a download initiation. */
  datatype DownloadResponse = DownloadResponse(
    taskId: string, status: string, message: string, downloadType: string, quality: string,
    downloadUrl: Option<string>, expiresAt: Option<Value>)

  // ------------------------------------------------ the DownloadStatus schema

  const RequiredStatusFields: set<string> := {"task_id", "status", "message", "download_type", "quality"}

  const OptionalStrStatusFields: set<string> :=
    {"download_url", "filename", "title", "url", "format", "thumbnail", "expires_at", "created_at"}

  const OptionalIntStatusFields: set<string> := {"total_files", "completed_files", "duration"}

  /** Every field the DownloadStatus schema declares. */
  const StatusFields: set<string> := RequiredStatusFields + OptionalStrStatusFields + OptionalIntStatusFields

  /** A value pydantic v1 accepts for a `str` field: text, or a number
      (booleans and floats included), which it coerces to text. */
  predicate IsStrLike(v: Value) {
    v.VStr? || v.VTime? || v.VInt? || v.VFloat? || v.VBool?
  }

  /** A value pydantic v1 accepts for an `Optional[int]` field: None, or
      anything `int(v)` converts, numeric text included. */
  predicate IsOptionalInt(v: Value) {
    v.VNone? || PyInt(v).Some?
  }

  /** Whether `DownloadStatus(**data)` validates: the five required fields are
      present with text, every optional field present has the declared type;
      keys outside the schema are ignored. */
  predicate ConformsToDownloadStatus(data: Record) {
    && (forall k :: k in RequiredStatusFields ==> k in data && IsStrLike(data[k]))
    && (forall k :: k in OptionalStrStatusFields && k in data ==> data[k].VNone? || IsStrLike(data[k]))
    && (forall k :: k in OptionalIntStatusFields && k in data ==> IsOptionalInt(data[k]))
  }

  /** A record without `status` is never a valid DownloadStatus, and the
      optional fields may be absent altogether. */
  lemma {:induction false} StatusSchemaShape(data: Record)
    ensures "status" !in data ==> !ConformsToDownloadStatus(data)
    ensures (forall k :: k in RequiredStatusFields ==> k in data && data[k].VStr?) && data.Keys == RequiredStatusFields
            ==> ConformsToDownloadStatus(data)
  {
    if "status" !in data {
      assert "status" in RequiredStatusFields;
    }
    if data.Keys == RequiredStatusFields {
      assert forall k :: k in OptionalStrStatusFields ==> k !in RequiredStatusFields;
      assert forall k :: k in OptionalIntStatusFields ==> k !in RequiredStatusFields;
    }
  }
}
