/** The status endpoint of app/api/endpoints/status.py.

    A job record is shaped into a DownloadStatus: keys outside the schema
    are dropped, a present `duration` is turned into an integer, and the
    media metadata is withheld until the job is completed or cleaned up.
    When the shaped record does not validate, a fallback built from the
    stored fields with defaults is answered instead. A field absent from an
    answer reads as None in the schema. */
module StatusEndpoint {
  import opened Common
  import opened Models
  import opened Storage

  /** The decimal text of a number reads back as that number. */
  lemma {:induction false} DecimalOfNatToString(n: nat)
    ensures DecimalValue(NatToString(n)) == n
  {
    var d := ['0' + (n % 10) as char];
    if n >= 10 {
      var init := NatToString(n / 10);
      DecimalOfNatToString(n / 10);
      assert (init + d)[..|init + d| - 1] == init;
    }
  }

  /** `int(str(i)) == i`: the text the service prints for an integer parses back to it. */
  lemma {:induction false} IntTextRoundTrip(i: int)
    ensures ParseInt(Str(VInt(i))) == Some(i)
  {
    if i < 0 {
      NegativeTextRoundTrip(i);
    } else {
      UnsignedTextRoundTrip(i);
    }
  }

  lemma UnsignedTextRoundTrip(n: nat)
    ensures ParseInt(IntText(n)) == Some(n)
  {
    var s := NatToString(n);
    DecimalOfNatToString(n);
    assert IsDecimal(s);
    StripOfUnspaced(s);
    assert s[0] != '+' && s[0] != '-' by {
      assert IsDigit(s[0]);
    }
    DecimalParses(s);
  }

  /** Digits alone, with no sign and no whitespace, parse to their decimal value. */
  lemma DecimalParses(s: string)
    requires IsDecimal(s) && Strip(s) == s && s[0] != '+' && s[0] != '-'
    ensures ParseInt(s) == Some(DecimalValue(s))
  {
    assert SignedDecimal(s) == Some(DecimalValue(s));
  }

  lemma NegativeTextRoundTrip(i: int)
    requires i < 0
    ensures ParseInt(IntText(i)) == Some(i)
  {
    var n: nat := -i;
    assert IntText(i) == "-" + NatToString(n);
    NegatedTextParses(n);
  }

  /** The text `-` followed by the digits of `n` parses to `-n`. */
  lemma NegatedTextParses(n: nat)
    ensures ParseInt("-" + NatToString(n)) == Some(-(n as int))
  {
    var t := "-" + NatToString(n);
    assert t != [] && t[0] == '-' && IsDecimal(t[1..]) && DecimalValue(t[1..]) == n by {
      assert t[1..] == NatToString(n);
      DecimalOfNatToString(n);
    }
    NegatedDecimalParses(t, n);
  }

  /** A minus sign followed by the digits of `n` parses to `-n`. */
  lemma NegatedDecimalParses(t: string, n: nat)
    requires t != [] && t[0] == '-' && IsDecimal(t[1..]) && DecimalValue(t[1..]) == n
    ensures ParseInt(t) == Some(-(n as int))
  {
    assert t[|t| - 1] == t[1..][|t| - 2];
    ParseOfUnspaced(t);
    MinusDecimal(t);
  }

  /** Text with no whitespace at either end is parsed as it stands. */
  lemma ParseOfUnspaced(s: string)
    requires s != [] && !IsSpace(s[0]) && !IsSpace(s[|s| - 1])
    ensures ParseInt(s) == SignedDecimal(s)
  {
    StripOfUnspaced(s);
  }

  /** A minus sign followed by digits reads as the negated digits. */
  lemma MinusDecimal(t: string)
    requires t != [] && t[0] == '-' && IsDecimal(t[1..])
    ensures SignedDecimal(t) == Some(-(DecimalValue(t[1..]) as int))
  {
  }

  // ------------------------------------------------------------- shaping

  /** `filtered_data`: the record restricted to the schema's fields. */
  function Whitelisted(data: Record): (r: Record)
    ensures r.Keys == data.Keys * StatusFields
    ensures forall k :: k in r ==> r[k] == data[k]
  {
    map k | k in data && k in StatusFields :: data[k]
  }

  /** A present, non-None `duration` becomes an integer, 0 when it does not convert. */
  function WithIntDuration(d: Record): (r: Record)
    ensures r.Keys == d.Keys
    ensures forall k :: k in d && k != "duration" ==> r[k] == d[k]
    ensures "duration" in d ==> (r["duration"].VNone? <==> d["duration"].VNone?)
    ensures "duration" in d && !d["duration"].VNone? ==>
              r["duration"] == VInt(if PyInt(d["duration"]).Some? then PyInt(d["duration"]).value else 0)
  {
    if "duration" in d && d["duration"] != VNone then
      d["duration" := VInt(match PyInt(d["duration"]) case Some(i) => i case None => 0)]
    else d
  }

  /** The media fields withheld from unfinished jobs, in the order they are removed. */
  const MetadataFields: seq<string> := ["title", "url", "duration", "format", "thumbnail"]

  const MetadataSet: set<string> := {"title", "url", "duration", "format", "thumbnail"}

  /** Whether the record's status lets its metadata through. */
  predicate ShowsMetadata(d: Record) {
    Get(d, "status", VNone) in {VStr("completed"), VStr("cleaned_up")}
  }

  /** The record handed to the schema on the first try. */
  function Shaped(data: Record): Record {
    var d := WithIntDuration(Whitelisted(data));
    if ShowsMetadata(d) then d else d - MetadataSet
  }

  /** The fallback answer: the required fields with defaults and the
      non-metadata fields as stored. */
  function Fallback(taskId: string, data: Record): (r: Record)
    ensures r.Keys <= StatusFields
    ensures forall f :: f in MetadataSet ==> f !in r
    ensures "status" in r && r["status"] == Get(data, "status", VStr("unknown"))
  {
    var required := FallbackRequired(taskId, data);
    var optional := FallbackOptional(data);
    FallbackFieldsInSchema();
    required + optional
  }

  /** The fallback's fields are schema fields and none of them is metadata. */
  lemma FallbackFieldsInSchema()
    ensures RequiredStatusFields + FallbackOptionalFields <= StatusFields
    ensures forall f :: f in MetadataSet ==> f !in RequiredStatusFields && f !in FallbackOptionalFields
    ensures "status" in RequiredStatusFields && "status" !in FallbackOptionalFields
  {
  }

  /** The required fields of the fallback, with their defaults. */
  function FallbackRequired(taskId: string, data: Record): (r: Record)
    ensures r.Keys == RequiredStatusFields
    ensures r["status"] == Get(data, "status", VStr("unknown"))
  {
    map[
      "task_id" := VStr(taskId),
      "status" := Get(data, "status", VStr("unknown")),
      "message" := Get(data, "message", VStr("Status information unavailable")),
      "download_type" := Get(data, "download_type", VStr("single")),
      "quality" := Get(data, "quality", VStr("best"))]
  }

  const FallbackOptionalFields: set<string> :=
    {"download_url", "filename", "total_files", "completed_files", "expires_at", "created_at"}

  /** The optional non-metadata fields of the fallback, None when not stored. */
  function FallbackOptional(data: Record): (r: Record)
    ensures r.Keys == FallbackOptionalFields
  {
    map[
      "download_url" := Get(data, "download_url", VNone),
      "filename" := Get(data, "filename", VNone),
      "total_files" := Get(data, "total_files", VNone),
      "completed_files" := Get(data, "completed_files", VNone),
      "expires_at" := Get(data, "expires_at", VNone),
      "created_at" := Get(data, "created_at", VNone)]
  }

  /** The answer for the record found under the id (None when there is none). */
  function StatusView(rec: Option<Record>, taskId: string): (r: Result<Record, HttpError>)
    ensures rec.None? || rec.value == map[] ==> r == Err(HttpError(404, "Task not found"))
    ensures r.Ok? ==> ConformsToDownloadStatus(r.value)
  {
    if rec.None? || rec.value == map[] then Err(HttpError(404, "Task not found"))
    else
      var shaped := Shaped(rec.value);
      if ConformsToDownloadStatus(shaped) then Ok(shaped)
      else
        var fallback := Fallback(taskId, rec.value);
        if ConformsToDownloadStatus(fallback) then Ok(fallback)
        else Err(HttpError(500, "fallback status does not validate"))
  }

  /** `get_download_status`. */
  method GetDownloadStatus(store: DownloadStorage, taskId: string) returns (r: Result<Record, HttpError>)
    ensures r == StatusView(Lookup(store.storage, taskId), taskId)
  {
    var statusData := store.GetStatus(taskId);
    if statusData.None? || statusData.value == map[] {
      return Err(HttpError(404, "Task not found"));
    }
    var filtered := Whitelisted(statusData.value);
    if "duration" in filtered && filtered["duration"] != VNone {
      var converted := PyInt(filtered["duration"]);
      filtered := filtered["duration" := VInt(if converted.Some? then converted.value else 0)];
    }
    assert filtered == WithIntDuration(Whitelisted(statusData.value));
    if Get(filtered, "status", VNone) !in {VStr("completed"), VStr("cleaned_up")} {
      filtered := PopMetadata(filtered);
    }
    assert filtered == Shaped(statusData.value);
    if ConformsToDownloadStatus(filtered) {
      return Ok(filtered);
    }
    var fallback := Fallback(taskId, statusData.value);
    if ConformsToDownloadStatus(fallback) {
      return Ok(fallback);
    }
    r := Err(HttpError(500, "fallback status does not validate"));
  }

  /** The loop that pops each metadata field in turn: no metadata field is
      left, and every other field keeps its value. */
  method PopMetadata(d: Record) returns (r: Record)
    ensures r.Keys == d.Keys - MetadataSet
    ensures forall k :: k in r ==> r[k] == d[k]
  {
    r := d;
    var i := 0;
    while i < |MetadataFields|
      invariant 0 <= i <= |MetadataFields|
      invariant r.Keys == d.Keys - (set f | f in MetadataFields[..i])
      invariant forall k :: k in r ==> r[k] == d[k]
    {
      assert MetadataFields[..i + 1] == MetadataFields[..i] + [MetadataFields[i]];
      r := r - {MetadataFields[i]};
      i := i + 1;
    }
    assert MetadataFields[..i] == MetadataFields;
    assert forall f :: f in MetadataFields <==> f in MetadataSet;
  }

  // ------------------------------------------------------- what it means

  /** Every answer holds only schema fields, and withholds the metadata of
      a job that is neither completed nor cleaned up. */
  lemma {:induction false} ViewIsWhitelisted(rec: Option<Record>, taskId: string)
    ensures StatusView(rec, taskId).Ok? ==> StatusView(rec, taskId).value.Keys <= StatusFields
    ensures StatusView(rec, taskId).Ok? && !ShowsMetadata(rec.value)
            ==> forall f :: f in MetadataSet ==> f !in StatusView(rec, taskId).value
  {
    if StatusView(rec, taskId).Ok? && !ShowsMetadata(rec.value) {
      var d := WithIntDuration(Whitelisted(rec.value));
      assert Get(d, "status", VNone) == Get(rec.value, "status", VNone) by {
        if "status" in rec.value {
          assert "status" in StatusFields;
        }
      }
    }
  }

  /** When the shaped record validates, every schema field of the stored
      record other than `duration` is answered unchanged, metadata included
      exactly when the job is completed or cleaned up; a non-None duration
      is answered as its integer value, or 0. */
  lemma {:induction false} ShapedPassesThrough(data: Record, taskId: string, k: string)
    requires data != map[] && ConformsToDownloadStatus(Shaped(data))
    requires k in data && k in StatusFields && k != "duration"
    ensures var r := StatusView(Some(data), taskId).value;
            (k !in MetadataSet || ShowsMetadata(data)) ==> k in r && r[k] == data[k]
    ensures var r := StatusView(Some(data), taskId).value;
            k in MetadataSet && !ShowsMetadata(data) ==> k !in r
  {
    var d := WithIntDuration(Whitelisted(data));
    assert Get(d, "status", VNone) == Get(data, "status", VNone) by {
      if "status" in data {
        assert "status" in StatusFields;
      }
    }
  }

  /** The duration answered for a finished job whose shaped record validates:
      `int` of the stored value, a float truncated toward zero, or 0 where `int` raises. */
  lemma {:induction false} DurationIsInteger(data: Record, taskId: string)
    requires data != map[] && ConformsToDownloadStatus(Shaped(data)) && ShowsMetadata(data)
    requires "duration" in data && !data["duration"].VNone?
    ensures var r := StatusView(Some(data), taskId).value;
            && "duration" in r
            && r["duration"] == VInt(if PyInt(data["duration"]).Some? then PyInt(data["duration"]).value else 0)
    ensures data["duration"].VFloat? ==>
              StatusView(Some(data), taskId).value["duration"]
              == VInt(Truncated(data["duration"].mantissa, data["duration"].exponent))
  {
    var d := WithIntDuration(Whitelisted(data));
    assert "duration" in StatusFields;
    assert Get(d, "status", VNone) == Get(data, "status", VNone) by {
      if "status" in data {
        assert "status" in StatusFields;
      }
    }
  }

  /** A record without `status` is answered by neither the shaped record
      nor the fallback: it is never valid, and its fallback status is `unknown`. */
  lemma {:induction false} MissingStatusFallsBack(data: Record, taskId: string)
    requires data != map[] && "status" !in data
    ensures StatusView(Some(data), taskId).Ok? ==> StatusView(Some(data), taskId).value["status"] == VStr("unknown")
  {
    var d := WithIntDuration(Whitelisted(data));
    assert "status" !in d;
    assert Shaped(data) == d - MetadataSet;
    StatusSchemaShape(Shaped(data));
  }
}
