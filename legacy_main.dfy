/** The legacy single-file service of main.py: the same job state machine
    as the packaged application, over a module-level table of job records,
    without URL checks, strategies or expiry. */
module LegacyMain {
  import opened Common
  import opened Models
  import opened Storage
  import opened DownloadService
  import opened DownloadEndpoint

  /** The format chain of the legacy worker: the quality text is used as the
      height verbatim, `height=720p` for `720p`. */
  function LegacyFormat(quality: string): (f: string)
    ensures OccursAt(f, "best[ext=mp4][height=" + quality + "]", 0)
  {
    var head := "best[ext=mp4][height=" + quality + "]";
    var f := head + "/best[ext=mp4]/mp4[height=" + quality + "]/mp4/best[height=" + quality + "]/best";
    assert f[..|head|] == head;
    f
  }

  /** The option dictionary the legacy worker hands to the engine, one
      field per key. */
  datatype LegacyOptionSet = LegacyOptionSet(
    outtmpl: string, format: string, mergeOutputFormat: string,
    writeInfoJson: bool, writeSubtitles: bool, writeAutomaticSub: bool, ignoreErrors: bool,
    quiet: bool, noWarnings: bool, extractFlat: bool, writeThumbnail: bool, preferFfmpeg: bool,
    userAgent: string, referer: string)

  const DesktopUserAgent: string :=
    "Mozilla/5.0 (Windows NT 10.0; Win64; x64) AppleWebKit/537.36 (KHTML, like Gecko) Chrome/91.0.4472.124 Safari/537.36"

  /** The options of a legacy job: output named `<id>_<title>.<ext>` in the
      downloads directory, the quality's format chain, and flat extraction
      for anything but a single video. */
  function LegacyOptions(taskId: string, downloadType: string, quality: string): (o: LegacyOptionSet)
    ensures o.extractFlat <==> downloadType != "single"
    ensures o.outtmpl == OutputPath(taskId + "_%(title)s.%(ext)s")
    ensures o.format == LegacyFormat(quality)
  {
    LegacyOptionSet(OutputPath(taskId + "_%(title)s.%(ext)s"), LegacyFormat(quality), "mp4",
                    false, false, false, false, true, true, downloadType != "single", false, true,
                    DesktopUserAgent, "https://www.youtube.com/")
  }

  /** The record a legacy job starts with. */
  function LegacyInitialRecord(request: VideoDownloadRequest, taskId: string): Record {
    map[
      "task_id" := VStr(taskId),
      "status" := VStr("initiated"),
      "message" := VStr(InitiationMessage(request)),
      "download_type" := VStr(DownloadTypeValue(request.downloadType)),
      "quality" := VStr(QualityValue(request.quality)),
      "download_url" := VNone,
      "filename" := VNone,
      "video_info" := VNone,
      "total_files" := VNone,
      "completed_files" := VNone]
  }

  const LegacyProcessing: Record := map["status" := VStr("processing"), "message" := VStr("Downloading video...")]

  function LegacyFailed(error: string): Record {
    map["status" := VStr("failed"), "message" := VStr("Download failed: " + error)]
  }

  /** What one matching file writes into the record. */
  function LegacyCompleted(taskId: string, url: string, info: Record, filename: string): (u: Record)
    ensures u.Keys == {"status", "message", "download_url", "filename", "video_info"}
  {
    var title := Get(info, "title", VStr("Unknown Video"));
    map[
      "status" := VStr("completed"),
      "message" := VStr("Video downloaded successfully: " + Str(title)),
      "download_url" := VStr("/download/" + taskId),
      "filename" := VStr(filename),
      "video_info" := VInfo(title, Get(info, "duration", VInt(0)), Get(info, "uploader", VStr("Unknown")), url)]
  }

  /** The record after the per-file updates for `files`, in order. */
  function FileUpdates(rec: Record, taskId: string, url: string, info: Record, files: seq<string>): Record
  {
    if files == [] then rec
    else FileUpdates(rec, taskId, url, info, files[..|files| - 1]) + LegacyCompleted(taskId, url, info, files[|files| - 1])
  }

  lemma FileUpdatesSnoc(rec: Record, taskId: string, url: string, info: Record, files: seq<string>, i: nat)
    requires i < |files|
    ensures FileUpdates(rec, taskId, url, info, files[..i + 1])
            == FileUpdates(rec, taskId, url, info, files[..i]) + LegacyCompleted(taskId, url, info, files[i])
  {
    assert files[..i + 1][..i] == files[..i];
  }

  const GeneratorLenMessage: string := "object of type 'generator' has no len()"

  /** Python's TypeError text for iterating over a value of the named type. */
  function NotIterable(typeName: string): string { "'" + typeName + "' object is not iterable" }

  /** A stand-in error for ISO timestamp text among the entries: the model
      does not know that text's characters, so it does not count them. */
  const UncountedTimestamp: string := "timestamp entries are not counted"

  /** `sum(1 for file in (info.get('entries') or []))`: the number of items
      iterating over the entries yields, or the error of iterating over
      something that cannot be iterated. */
  function EntryCount(info: Record): (r: Result<nat, string>)
    ensures !Truthy(Get(info, "entries", VNone)) ==> r == Ok(0)
    ensures Get(info, "entries", VNone).VList? ==> r == Ok(|info["entries"].items|)
    ensures Get(info, "entries", VNone).VInt? || Get(info, "entries", VNone).VBool? || Get(info, "entries", VNone).VFloat?
            ==> r.Err? || r == Ok(0)
  {
    match Get(info, "entries", VNone)
    case VNone => Ok(0)
    case VBool(b) => if b then Err(NotIterable("bool")) else Ok(0)
    case VInt(i) => if i == 0 then Ok(0) else Err(NotIterable("int"))
    case VFloat(m, _) => if m == 0 then Ok(0) else Err(NotIterable("float"))
    case VStr(s) => Ok(|s|)
    case VTime(_) => Err(UncountedTimestamp)
    case VHeaders(h) => Ok(|h.Keys|)
    case VInfo(_, _, _, _) => Ok(4)
    case VList(items) => Ok(|items|)
    case VOther(tag) => Err(NotIterable(tag))
  }

  /** The counting step for a playlist or album job: the fields it sets, or
      the error it raises. As written, `len` of the glob generator raises
      once the entries are counted. */
  function CountStep(info: Record, downloadType: string, matching: seq<string>, asWritten: bool): Result<Record, string> {
    if downloadType == "single" then Ok(map[])
    else match EntryCount(info)
      case Err(e) => Err(e)
      case Ok(n) =>
        if asWritten then Err(GeneratorLenMessage)
        else Ok(map["total_files" := VInt(n), "completed_files" := VInt(|matching|)])
  }

  /** The record after the engine answered `info`. */
  function AfterSuccess(rec: Record, taskId: string, url: string, downloadType: string, info: Record,
                        matching: seq<string>, asWritten: bool): Record
  {
    match CountStep(info, downloadType, matching, asWritten)
    case Err(e) => rec + LegacyFailed(e)
    case Ok(counts) => AfterCounts(rec + counts, taskId, url, info, matching)
  }

  /** The record once the counting step is past: the missing-file failure,
      or one completed update per matching file. */
  function AfterCounts(rec: Record, taskId: string, url: string, info: Record, matching: seq<string>): Record {
    if matching == [] then rec + LegacyFailed(FileNotFoundMessage)
    else FileUpdates(rec, taskId, url, info, matching)
  }

  /** The record of a known job after the legacy worker, given the engine's
      answer and the names the glob `<id>_*` matches afterwards. */
  function WorkerRecord(rec: Record, taskId: string, url: string, downloadType: string,
                        attempt: EngineResult, matching: seq<string>, asWritten: bool): Record
  {
    match attempt
    case Failure(msg) => (rec + LegacyProcessing) + LegacyFailed(msg)
    case Success(info) => AfterSuccess(rec + LegacyProcessing, taskId, url, downloadType, info, matching, asWritten)
  }

  /** The whole effect of the legacy worker on the table: an unknown id
      raises before anything is written, and only the job's record changes. */
  function WorkerOutcome(m: map<string, Record>, taskId: string, url: string, downloadType: string,
                         attempt: EngineResult, matching: seq<string>, asWritten: bool): (r: map<string, Record>)
    ensures r.Keys == m.Keys
    ensures forall k :: k in m && k != taskId ==> r[k] == m[k]
  {
    if taskId !in m then m
    else m[taskId := WorkerRecord(m[taskId], taskId, url, downloadType, attempt, matching, asWritten)]
  }

  /** The fields the legacy status schema declares. */
  const LegacyStatusFields: set<string> :=
    {"task_id", "status", "message", "download_type", "quality", "download_url", "filename",
     "total_files", "completed_files"}

  /** Whether the legacy `DownloadStatus(**record)` validates. */
  predicate LegacyConforms(data: Record) {
    && (forall k :: k in RequiredStatusFields ==> k in data && IsStrLike(data[k]))
    && (forall k :: k in {"download_url", "filename"} && k in data ==> data[k].VNone? || IsStrLike(data[k]))
    && (forall k :: k in {"total_files", "completed_files"} && k in data ==> IsOptionalInt(data[k]))
  }

  /** The answer of the legacy status lookup: the schema fields of the record. */
  function LegacyStatusView(rec: Option<Record>): (r: Result<Record, HttpError>)
    ensures rec.None? ==> r == Err(HttpError(404, "Task not found"))
    ensures r.Ok? ==> rec.Some? && r.value.Keys <= LegacyStatusFields
                      && forall k :: k in r.value ==> k in rec.value && r.value[k] == rec.value[k]
  {
    if rec.None? then Err(HttpError(404, "Task not found"))
    else if LegacyConforms(rec.value) then Ok(map k | k in rec.value && k in LegacyStatusFields :: rec.value[k])
    else Err(HttpError(500, "record does not validate as DownloadStatus"))
  }

  /** The served file of the legacy download: its path and the name offered. */
  datatype LegacyFileReply = LegacyFileReply(path: string, filename: Value)

  /** The answer of the legacy `download_file`, given the record under the id
      and the directory listing. */
  function LegacyFileDecision(rec: Option<Record>, taskId: string, listing: seq<string>)
    : (r: Result<LegacyFileReply, HttpError>)
    ensures rec.None? ==> r == Err(HttpError(404, "Task not found"))
    ensures r.Ok? ==> rec.Some? && "status" in rec.value && rec.value["status"] == VStr("completed")
  {
    if rec.None? then Err(HttpError(404, "Task not found"))
    else if "status" !in rec.value then Err(HttpError(500, "KeyError: 'status'"))
    else if rec.value["status"] != VStr("completed") then
      Err(HttpError(400, "Download not completed. Status: " + Str(rec.value["status"])))
    else
      var files := Matching(listing, taskId + "_");
      if files == [] then Err(HttpError(404, FileNotFoundMessage))
      else Ok(LegacyFileReply(OutputPath(files[0]), Get(rec.value, "filename", VStr(files[0]))))
  }

  class LegacyApp {
    /** The module-level `download_status` table. */
    var downloadStatus: map<string, Record>

    constructor()
      ensures downloadStatus == map[]
    {
      downloadStatus := map[];
    }

    /** `initiate_download`: the record is created at once, without any
        check of the URL; `taskId` is the fresh identifier. */
    method InitiateDownload(request: VideoDownloadRequest, taskId: string) returns (resp: DownloadResponse)
      modifies this
      ensures downloadStatus == old(downloadStatus)[taskId := LegacyInitialRecord(request, taskId)]
      ensures resp == DownloadResponse(taskId, "initiated", InitiationMessage(request),
                                       DownloadTypeValue(request.downloadType), QualityValue(request.quality), None, None)
    {
      downloadStatus := downloadStatus[taskId := LegacyInitialRecord(request, taskId)];
      resp := DownloadResponse(taskId, "initiated", InitiationMessage(request),
                               DownloadTypeValue(request.downloadType), QualityValue(request.quality), None, None);
    }

    /** The legacy worker `download_video` as written: `engine` stands for the
        download library and `filesAfter` for the directory listing after it. */
    method DownloadVideoAsWritten(url: string, taskId: string, downloadType: string, quality: string,
                                  engine: (string, LegacyOptionSet) -> EngineResult, filesAfter: seq<string>)
      modifies this
      ensures downloadStatus == WorkerOutcome(old(downloadStatus), taskId, url, downloadType,
                                              engine(url, LegacyOptions(taskId, downloadType, quality)),
                                              Matching(filesAfter, taskId + "_"), true)
    {
      Worker(url, taskId, downloadType, quality, engine, filesAfter, true);
    }

    /** The legacy worker with the file count taken from the list of matches. */
    method DownloadVideo(url: string, taskId: string, downloadType: string, quality: string,
                         engine: (string, LegacyOptionSet) -> EngineResult, filesAfter: seq<string>)
      modifies this
      ensures downloadStatus == WorkerOutcome(old(downloadStatus), taskId, url, downloadType,
                                              engine(url, LegacyOptions(taskId, downloadType, quality)),
                                              Matching(filesAfter, taskId + "_"), false)
    {
      Worker(url, taskId, downloadType, quality, engine, filesAfter, false);
    }

    /** The steps of the worker; `asWritten` selects how the files are counted. */
    method Worker(url: string, taskId: string, downloadType: string, quality: string,
                  engine: (string, LegacyOptionSet) -> EngineResult, filesAfter: seq<string>, asWritten: bool)
      modifies this
      ensures downloadStatus == WorkerOutcome(old(downloadStatus), taskId, url, downloadType,
                                              engine(url, LegacyOptions(taskId, downloadType, quality)),
                                              Matching(filesAfter, taskId + "_"), asWritten)
    {
      if taskId !in downloadStatus {
        return;
      }
      var matching := Matching(filesAfter, taskId + "_");
      var attempt := engine(url, LegacyOptions(taskId, downloadType, quality));
      Run(taskId, url, downloadType, attempt, matching, asWritten);
    }

    /** The worker's steps for a known job once the engine has answered `attempt`. */
    method Run(taskId: string, url: string, downloadType: string, attempt: EngineResult, matching: seq<string>,
               asWritten: bool)
      requires taskId in downloadStatus
      modifies this
      ensures downloadStatus == old(downloadStatus)[taskId := WorkerRecord(old(downloadStatus)[taskId], taskId, url,
                                                                           downloadType, attempt, matching, asWritten)]
    {
      var processing := downloadStatus[taskId] + LegacyProcessing;
      if attempt.Failure? {
        downloadStatus := downloadStatus[taskId := processing + LegacyFailed(attempt.msg)];
        return;
      }
      downloadStatus := downloadStatus[taskId := processing];
      Settle(taskId, url, downloadType, attempt.info, matching, asWritten);
    }

    /** The worker's steps once the engine has answered `info`. */
    method Settle(taskId: string, url: string, downloadType: string, info: Record, matching: seq<string>,
                  asWritten: bool)
      requires taskId in downloadStatus
      modifies this
      ensures downloadStatus == old(downloadStatus)[taskId := AfterSuccess(old(downloadStatus)[taskId], taskId, url,
                                                                           downloadType, info, matching, asWritten)]
    {
      var rec := downloadStatus[taskId];
      var counts := CountStep(info, downloadType, matching, asWritten);
      if counts.Err? {
        downloadStatus := downloadStatus[taskId := rec + LegacyFailed(counts.error)];
        return;
      }
      downloadStatus := downloadStatus[taskId := rec + counts.value];
      RecordFiles(taskId, url, info, matching);
    }

    /** The missing-file failure, or the loop over the matching files. */
    method RecordFiles(taskId: string, url: string, info: Record, matching: seq<string>)
      requires taskId in downloadStatus
      modifies this
      ensures downloadStatus == old(downloadStatus)[taskId := AfterCounts(old(downloadStatus)[taskId], taskId, url,
                                                                          info, matching)]
    {
      if matching == [] {
        downloadStatus := downloadStatus[taskId := downloadStatus[taskId] + LegacyFailed(FileNotFoundMessage)];
        return;
      }
      UpdatePerFile(taskId, url, info, matching);
    }

    /** The loop over the matching files: one completed update per file. */
    method UpdatePerFile(taskId: string, url: string, info: Record, files: seq<string>)
      requires taskId in downloadStatus
      modifies this
      ensures downloadStatus == old(downloadStatus)[taskId := FileUpdates(old(downloadStatus)[taskId], taskId, url, info, files)]
    {
      var rec := downloadStatus[taskId];
      var acc := rec;
      var i := 0;
      while i < |files|
        invariant 0 <= i <= |files|
        invariant acc == FileUpdates(rec, taskId, url, info, files[..i])
        invariant downloadStatus == old(downloadStatus)
      {
        FileUpdatesSnoc(rec, taskId, url, info, files, i);
        acc := acc + LegacyCompleted(taskId, url, info, files[i]);
        i := i + 1;
      }
      assert files[..i] == files;
      downloadStatus := downloadStatus[taskId := acc];
    }

    /** `get_download_status`. */
    method GetDownloadStatus(taskId: string) returns (r: Result<Record, HttpError>)
      ensures r == LegacyStatusView(Lookup(downloadStatus, taskId))
    {
      if taskId !in downloadStatus {
        return Err(HttpError(404, "Task not found"));
      }
      var rec := downloadStatus[taskId];
      if !LegacyConforms(rec) {
        return Err(HttpError(500, "record does not validate as DownloadStatus"));
      }
      r := Ok(map k | k in rec && k in LegacyStatusFields :: rec[k]);
    }

    /** `download_file`: `listing` is the downloads directory listing. */
    method DownloadFile(taskId: string, listing: seq<string>) returns (r: Result<LegacyFileReply, HttpError>)
      ensures r == LegacyFileDecision(Lookup(downloadStatus, taskId), taskId, listing)
    {
      if taskId !in downloadStatus {
        return Err(HttpError(404, "Task not found"));
      }
      var status := downloadStatus[taskId];
      if "status" !in status {
        return Err(HttpError(500, "KeyError: 'status'"));
      }
      if status["status"] != VStr("completed") {
        return Err(HttpError(400, "Download not completed. Status: " + Str(status["status"])));
      }
      var files := Matching(listing, taskId + "_");
      if files == [] {
        return Err(HttpError(404, FileNotFoundMessage));
      }
      r := Ok(LegacyFileReply(OutputPath(files[0]), Get(status, "filename", VStr(files[0]))));
    }
  }

  // ------------------------------------------------------- what it means

  /** The quality reaches the format chain as it is, `p` included. */
  lemma FormatEmbedsQuality(quality: string)
    ensures Contains(LegacyFormat(quality), "height=" + quality + "]")
  {
    var head := "best[ext=mp4][height=" + quality + "]";
    var f := LegacyFormat(quality);
    assert f[..|head|] == head;
    assert f[14..14 + |"height=" + quality + "]"|] == "height=" + quality + "]";
    ContainsWitness(f, "height=" + quality + "]", 14);
  }

  /** A new legacy record is `initiated`, has no file, information or counts,
      and is readable through the status lookup. */
  lemma {:induction false} InitiatedIsReadable(m: map<string, Record>, request: VideoDownloadRequest, taskId: string)
    ensures var r := LegacyStatusView(Lookup(m[taskId := LegacyInitialRecord(request, taskId)], taskId));
            && r.Ok? && r.value["status"] == VStr("initiated")
            && r.value["download_url"] == VNone && r.value["filename"] == VNone
            && r.value["total_files"] == VNone && r.value["completed_files"] == VNone
  {
    var rec := LegacyInitialRecord(request, taskId);
    assert Lookup(m[taskId := rec], taskId) == Some(rec);
    LegacyInitialConforms(request, taskId);
    LegacyInitialFields(request, taskId);
    ViewOfConforming(rec);
    assert "status" in LegacyStatusFields && "download_url" in LegacyStatusFields && "filename" in LegacyStatusFields;
    assert "total_files" in LegacyStatusFields && "completed_files" in LegacyStatusFields;
  }

  lemma LegacyInitialConforms(request: VideoDownloadRequest, taskId: string)
    ensures LegacyConforms(LegacyInitialRecord(request, taskId))
  {
    var rec := LegacyInitialRecord(request, taskId);
    forall k | k in RequiredStatusFields ensures k in rec && IsStrLike(rec[k]) {
      assert k in {"task_id", "status", "message", "download_type", "quality"};
    }
  }

  lemma LegacyInitialFields(request: VideoDownloadRequest, taskId: string)
    ensures var rec := LegacyInitialRecord(request, taskId);
            && "status" in rec && rec["status"] == VStr("initiated")
            && "download_url" in rec && rec["download_url"] == VNone && "filename" in rec && rec["filename"] == VNone
            && "total_files" in rec && rec["total_files"] == VNone
            && "completed_files" in rec && rec["completed_files"] == VNone
  {
  }

  /** A record that validates is answered with its schema fields. */
  lemma ViewOfConforming(rec: Record)
    requires LegacyConforms(rec)
    ensures var r := LegacyStatusView(Some(rec));
            r.Ok? && forall k :: k in rec && k in LegacyStatusFields ==> k in r.value && r.value[k] == rec[k]
  {
  }

  /** An engine error leaves the record `failed` with the error after
      `Download failed: `, every other field kept. */
  lemma EngineFailureIsRecorded(rec: Record, taskId: string, url: string, downloadType: string, msg: string,
                                matching: seq<string>, asWritten: bool)
    ensures var r := WorkerRecord(rec, taskId, url, downloadType, Failure(msg), matching, asWritten);
            && r["status"] == VStr("failed") && r["message"] == VStr("Download failed: " + msg)
            && forall f :: f in rec && f !in {"status", "message"} ==> f in r && r[f] == rec[f]
  {
  }

  /** Every per-file update writes the same fields, so the record ends as
      the last file's update over the record before the loop. */
  lemma {:induction false} LastFileDecides(rec: Record, taskId: string, url: string, info: Record, files: seq<string>)
    requires files != []
    ensures FileUpdates(rec, taskId, url, info, files) == rec + LegacyCompleted(taskId, url, info, files[|files| - 1])
    decreases |files|
  {
    var init := files[..|files| - 1];
    if init != [] {
      LastFileDecides(rec, taskId, url, info, init);
      OverwriteSameKeys(rec, LegacyCompleted(taskId, url, info, init[|init| - 1]),
                        LegacyCompleted(taskId, url, info, files[|files| - 1]));
    }
  }

  /** A single download that the engine completes with files present ends
      `completed`, with the download URL of the job, the last matching file
      as its name and the submitted URL in its information. */
  lemma {:induction false} SingleSuccessIsCompleted(rec: Record, taskId: string, url: string, info: Record,
                                                    matching: seq<string>, asWritten: bool)
    requires matching != []
    ensures var r := WorkerRecord(rec, taskId, url, "single", Success(info), matching, asWritten);
            && r == (rec + LegacyProcessing) + LegacyCompleted(taskId, url, info, matching[|matching| - 1])
            && r["status"] == VStr("completed")
            && r["download_url"] == VStr("/download/" + taskId)
            && r["filename"] == VStr(matching[|matching| - 1])
            && r["video_info"].VInfo? && r["video_info"].originalUrl == url
  {
    var r1 := rec + LegacyProcessing;
    assert CountStep(info, "single", matching, asWritten) == Ok(map[]);
    assert r1 + map[] == r1;
    assert WorkerRecord(rec, taskId, url, "single", Success(info), matching, asWritten)
           == FileUpdates(r1, taskId, url, info, matching);
    LastFileDecides(r1, taskId, url, info, matching);
    CompletedFields(r1, taskId, url, info, matching[|matching| - 1]);
  }

  /** The worker never leaves a known job `processing`: it ends `failed` or
      `completed`. */
  lemma {:induction false} WorkerSettles(rec: Record, taskId: string, url: string, downloadType: string,
                                         attempt: EngineResult, matching: seq<string>, asWritten: bool)
    ensures WorkerRecord(rec, taskId, url, downloadType, attempt, matching, asWritten)["status"]
            in {VStr("failed"), VStr("completed")}
  {
    if attempt.Success? && CountStep(attempt.info, downloadType, matching, asWritten).Ok? && matching != [] {
      var r2 := (rec + LegacyProcessing) + CountStep(attempt.info, downloadType, matching, asWritten).value;
      LastFileDecides(r2, taskId, url, attempt.info, matching);
    }
  }

  /** As written, a playlist or album download that the engine completes
      ends `failed` with the generator error whenever its entries can be
      iterated, whatever files it left. */
  lemma {:induction false} NonSingleFailsAsWritten(rec: Record, taskId: string, url: string, downloadType: string,
                                                   info: Record, matching: seq<string>)
    requires downloadType != "single" && EntryCount(info).Ok?
    ensures var r := WorkerRecord(rec, taskId, url, downloadType, Success(info), matching, true);
            && r["status"] == VStr("failed")
            && r["message"] == VStr("Download failed: " + GeneratorLenMessage)
  {
  }

  /** What a completed update writes. */
  lemma CompletedFields(r: Record, taskId: string, url: string, info: Record, filename: string)
    ensures var u := r + LegacyCompleted(taskId, url, info, filename);
            && u["status"] == VStr("completed")
            && u["download_url"] == VStr("/download/" + taskId)
            && u["filename"] == VStr(filename)
            && u["video_info"].VInfo? && u["video_info"].originalUrl == url
  {
  }

  /** A completed update leaves the counters alone. */
  lemma CompletedKeepsCounts(r: Record, taskId: string, url: string, info: Record, filename: string)
    ensures var u := r + LegacyCompleted(taskId, url, info, filename);
            && u["status"] == VStr("completed")
            && ("total_files" in r ==> "total_files" in u && u["total_files"] == r["total_files"])
            && ("completed_files" in r ==> "completed_files" in u && u["completed_files"] == r["completed_files"])
  {
  }

  /** With the count corrected, a playlist or album whose entries can be
      iterated and whose files are present ends `completed`, with
      `total_files` the number of entries and `completed_files` the number
      of matching files. */
  lemma {:induction false} CorrectedCountsFiles(rec: Record, taskId: string, url: string, downloadType: string,
                                                info: Record, matching: seq<string>)
    requires downloadType != "single" && matching != [] && EntryCount(info).Ok?
    ensures var r := WorkerRecord(rec, taskId, url, downloadType, Success(info), matching, false);
            && r["status"] == VStr("completed")
            && "total_files" in r && r["total_files"] == VInt(EntryCount(info).value)
            && "completed_files" in r && r["completed_files"] == VInt(|matching|)
  {
    var counts := map["total_files" := VInt(EntryCount(info).value), "completed_files" := VInt(|matching|)];
    assert CountStep(info, downloadType, matching, false) == Ok(counts);
    var r2 := (rec + LegacyProcessing) + counts;
    assert "total_files" in r2 && r2["total_files"] == VInt(EntryCount(info).value);
    assert "completed_files" in r2 && r2["completed_files"] == VInt(|matching|);
    assert WorkerRecord(rec, taskId, url, downloadType, Success(info), matching, false)
           == FileUpdates(r2, taskId, url, info, matching);
    LastFileDecides(r2, taskId, url, info, matching);
    CompletedKeepsCounts(r2, taskId, url, info, matching[|matching| - 1]);
  }

  /** A playlist of two entries whose two files are on disk: as written it
      ends `failed`, with the count corrected it ends `completed` with both
      files counted. */
  lemma PlaylistCounterexample()
    ensures var rec := map["status" := VStr("initiated")];
            var info := map["entries" := VList([VStr("a"), VStr("b")])];
            var files := ["t_a.mp4", "t_b.mp4"];
            && WorkerRecord(rec, "t", "https://x.test/p", "playlist", Success(info), files, true)["status"]
               == VStr("failed")
            && var fixed := WorkerRecord(rec, "t", "https://x.test/p", "playlist", Success(info), files, false);
               "total_files" in fixed && fixed["total_files"] == VInt(2) && fixed["status"] == VStr("completed")
  {
    var rec := map["status" := VStr("initiated")];
    var info := map["entries" := VList([VStr("a"), VStr("b")])];
    var files := ["t_a.mp4", "t_b.mp4"];
    NonSingleFailsAsWritten(rec, "t", "https://x.test/p", "playlist", info, files);
    CorrectedCountsFiles(rec, "t", "https://x.test/p", "playlist", info, files);
  }

  /** The legacy download checks in order: unknown id, status, then files;
      it serves the first matching file in listing order under the recorded
      name, which after a multi-file job is the last file processed. */
  lemma {:induction false} FileChecksInOrder(rec: Option<Record>, taskId: string, listing: seq<string>)
    ensures rec.Some? && "status" in rec.value && rec.value["status"] != VStr("completed")
            ==> LegacyFileDecision(rec, taskId, listing).Err? && LegacyFileDecision(rec, taskId, listing).error.code == 400
    ensures rec.Some? && "status" in rec.value && rec.value["status"] == VStr("completed")
            ==> (LegacyFileDecision(rec, taskId, listing).Ok? <==> exists n :: n in listing && StartsWith(n, taskId + "_"))
    ensures LegacyFileDecision(rec, taskId, listing).Ok? ==>
              var files := Matching(listing, taskId + "_");
              files != [] && LegacyFileDecision(rec, taskId, listing).value.path == OutputPath(files[0])
  {
    if rec.Some? && "status" in rec.value && rec.value["status"] == VStr("completed") {
      var files := Matching(listing, taskId + "_");
      if files != [] {
        assert files[0] in files;
      }
    }
  }
}
