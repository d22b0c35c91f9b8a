/** The download endpoints of app/api/endpoints/download.py.

    `initiate_download` refuses a request whose URL is malformed or whose
    platform is not recognised before any record exists, and otherwise
    creates the job record in state `initiated` and hands the job to the
    background download. `download_file` walks the job record through an
    ordered series of checks and, when a completed job's file has gone from
    the downloads directory, moves the record to `cleaned_up` on the spot. */
module DownloadEndpoint {
  import opened Common
  import opened Models
  import opened Validation
  import opened Storage
  import opened Cleanup
  import opened DownloadService

  // ======================================================== initiate_download

  const InvalidUrlDetail: string := "Invalid URL format. Please check the URL and try again."

  /** Why a request is refused before any record is created, if it is. */
  function Refusal(url: string): (r: Option<HttpError>)
    ensures r.None? <==> IsValidUrl(url) && ValidateUrlPlatform(url).supported
    ensures !IsValidUrl(url) ==> r == Some(HttpError(400, InvalidUrlDetail))
    ensures IsValidUrl(url) && !ValidateUrlPlatform(url).supported
            ==> r == Some(HttpError(400, UnsupportedPlatformMessage))
  {
    if !IsValidUrl(url) then Some(HttpError(400, InvalidUrlDetail))
    else
      var check := ValidateUrlPlatform(url);
      if !check.supported then Some(HttpError(400, check.message.value)) else None
  }

  /** The initiation message, with the type in title case and the quality by its value. */
  function InitiationMessage(request: VideoDownloadRequest): string {
    DownloadTypeTitle(request.downloadType) + " download initiated (" + QualityValue(request.quality)
    + ") for: " + request.url
  }

  /** The record a new job starts with; `now` is the instant of the request. */
  function InitialRecord(request: VideoDownloadRequest, taskId: string, now: int): Record {
    map[
      "task_id" := VStr(taskId),
      "status" := VStr("initiated"),
      "message" := VStr(InitiationMessage(request)),
      "download_type" := VStr(DownloadTypeValue(request.downloadType)),
      "quality" := VStr(QualityValue(request.quality)),
      "download_url" := VNone,
      "filename" := VNone,
      "total_files" := VNone,
      "completed_files" := VNone,
      "expires_at" := VTime(now + RetentionSeconds),
      "created_at" := VTime(now)]
  }

  /** The answer to an accepted request. */
  function InitiationResponse(request: VideoDownloadRequest, taskId: string, now: int): DownloadResponse {
    DownloadResponse(taskId, "initiated", InitiationMessage(request), DownloadTypeValue(request.downloadType),
                     QualityValue(request.quality), None, Some(VTime(now + RetentionSeconds)))
  }

  /** A new record is `initiated`, has no file yet and expires five hours
      after its creation. */
  lemma InitialRecordIsInitiated(request: VideoDownloadRequest, taskId: string, now: int)
    ensures var rec := InitialRecord(request, taskId, now);
            && rec["status"] == VStr("initiated")
            && rec["download_url"] == VNone && rec["filename"] == VNone
            && rec["total_files"] == VNone && rec["completed_files"] == VNone
            && rec["expires_at"].VTime? && rec["created_at"].VTime?
            && rec["expires_at"].t == rec["created_at"].t + 5 * 3600
  {
  }

  /** A new record is a valid DownloadStatus. */
  lemma InitialRecordConforms(request: VideoDownloadRequest, taskId: string, now: int)
    ensures ConformsToDownloadStatus(InitialRecord(request, taskId, now))
  {
    var rec := InitialRecord(request, taskId, now);
    forall k | k in RequiredStatusFields ensures k in rec && IsStrLike(rec[k]) {
      assert k in {"task_id", "status", "message", "download_type", "quality"};
    }
    forall k | k in OptionalStrStatusFields && k in rec ensures rec[k].VNone? || IsStrLike(rec[k]) {
      assert k in {"download_url", "filename", "expires_at", "created_at"};
    }
    forall k | k in OptionalIntStatusFields && k in rec ensures IsOptionalInt(rec[k]) {
      assert k in {"total_files", "completed_files"};
    }
  }

  /** The answer repeats what the record holds: the same id, message, type,
      quality and expiry instant. */
  lemma ResponseAgreesWithRecord(request: VideoDownloadRequest, taskId: string, now: int)
    ensures var rec := InitialRecord(request, taskId, now);
            var resp := InitiationResponse(request, taskId, now);
            && rec["task_id"] == VStr(resp.taskId) && rec["status"] == VStr(resp.status)
            && rec["message"] == VStr(resp.message)
            && rec["download_type"] == VStr(resp.downloadType) && rec["quality"] == VStr(resp.quality)
            && resp.expiresAt == Some(rec["expires_at"])
            && resp.downloadUrl.None?
  {
  }

  /** `initiate_download`: `taskId` is the fresh identifier and `now` the
      clock. A refused request leaves the store as it was. */
  method InitiateDownload(store: DownloadStorage, request: VideoDownloadRequest, taskId: string, now: int)
    returns (r: Result<DownloadResponse, HttpError>)
    modifies store
    ensures Refusal(request.url).Some? ==> r == Err(Refusal(request.url).value) && store.storage == old(store.storage)
    ensures Refusal(request.url).None? ==>
              && r == Ok(InitiationResponse(request, taskId, now))
              && store.storage == old(store.storage)[taskId := InitialRecord(request, taskId, now)]
  {
    if !IsValidUrl(request.url) {
      return Err(HttpError(400, InvalidUrlDetail));
    }
    var check := ValidateUrlPlatform(request.url);
    if !check.supported {
      return Err(HttpError(400, check.message.value));
    }
    store.SetStatus(taskId, InitialRecord(request, taskId, now));
    r := Ok(InitiationResponse(request, taskId, now));
  }

  // ============================================================ download_file

  const NotFoundDetail: string := "Task not found"
  const GoneDetail: string := "File has been automatically deleted after 5 hours expiration period"
  const ExpiredDetail: string := "Downloaded file no longer available (expired)"

  /** What `download_file` writes into a completed record whose file has gone. */
  const LazyCleanupUpdate: Record := map[
    "status" := VStr("cleaned_up"),
    "message" := VStr("File automatically deleted after expiration"),
    "download_url" := VNone]

  /** What `download_file` does with a record: serve the named file, refuse,
      or mark the record cleaned up and refuse with 410. */
  datatype FileDecision = Serve(filename: string) | Refuse(error: HttpError) | Expire

  /** The decision for the record found under the id (None when there is
      none) and the names present in the downloads directory. A record
      without `status` raises KeyError, and a file name that is not text
      raises TypeError in the path join; both end as 500. A file name that
      is ISO timestamp text carries no name to look up, and is taken to
      name no file present. */
  function DecideFile(rec: Option<Record>, disk: set<string>): (d: FileDecision)
    ensures d.Serve? ==> d.filename in disk && d.filename != ""
  {
    if rec.None? || rec.value == map[] then Refuse(HttpError(404, NotFoundDetail))
    else if "status" !in rec.value then Refuse(HttpError(500, "KeyError: 'status'"))
    else
      var status := rec.value["status"];
      if status == VStr("cleaned_up") then Refuse(HttpError(410, GoneDetail))
      else if status != VStr("completed") then Refuse(HttpError(400, "Download not completed. Status: " + Str(status)))
      else
        var filename := Get(rec.value, "filename", VNone);
        if !Truthy(filename) || filename.VTime? then Expire
        else if !filename.VStr? then Refuse(HttpError(500, "TypeError: path component must be text"))
        else if filename.s !in disk then Expire
        else Serve(filename.s)
  }

  /** The checks run in order: a missing or empty record is 404, a
      `cleaned_up` one 410, any other status but `completed` 400, and a
      completed job is served exactly when its file name is text naming a
      file present; a completed job whose file name is empty, a timestamp,
      or absent from the directory is expired. */
  lemma {:induction false} ChecksInOrder(rec: Option<Record>, disk: set<string>)
    ensures rec.None? || rec.value == map[] ==> DecideFile(rec, disk) == Refuse(HttpError(404, NotFoundDetail))
    ensures rec.Some? && "status" in rec.value && rec.value["status"] == VStr("cleaned_up")
            ==> DecideFile(rec, disk) == Refuse(HttpError(410, GoneDetail))
    ensures rec.Some? && rec.value != map[] && "status" in rec.value
            && rec.value["status"] !in {VStr("cleaned_up"), VStr("completed")}
            ==> DecideFile(rec, disk).Refuse? && DecideFile(rec, disk).error.code == 400
    ensures DecideFile(rec, disk).Serve? <==>
              && rec.Some? && "status" in rec.value && rec.value["status"] == VStr("completed")
              && "filename" in rec.value && rec.value["filename"].VStr?
              && rec.value["filename"].s != "" && rec.value["filename"].s in disk
    ensures DecideFile(rec, disk).Serve? ==> DecideFile(rec, disk).filename == rec.value["filename"].s
    ensures DecideFile(rec, disk) == Expire <==>
              && rec.Some? && "status" in rec.value && rec.value["status"] == VStr("completed")
              && (!Truthy(Get(rec.value, "filename", VNone))
                  || rec.value["filename"].VTime?
                  || (rec.value["filename"].VStr? && rec.value["filename"].s !in disk))
  {
    if rec.Some? && "status" in rec.value {
      assert rec.value != map[] by {
        assert "status" in rec.value.Keys;
      }
    }
  }

  /** The served file: its path in the downloads directory and the name it is offered under. */
  datatype FileReply = FileReply(path: string, filename: string)

  /** `download_file`. `disk` holds the names present in the downloads directory. */
  method DownloadFile(store: DownloadStorage, taskId: string, disk: set<string>) returns (r: Result<FileReply, HttpError>)
    modifies store
    ensures var d := DecideFile(Lookup(old(store.storage), taskId), disk);
            && (d.Serve? ==> r == Ok(FileReply(OutputPath(d.filename), d.filename)) && store.storage == old(store.storage))
            && (d.Refuse? ==> r == Err(d.error) && store.storage == old(store.storage))
            && (d.Expire? ==> r == Err(HttpError(410, ExpiredDetail))
                              && store.storage == Merged(old(store.storage), taskId, LazyCleanupUpdate))
  {
    var statusData := store.GetStatus(taskId);
    if statusData.None? || statusData.value == map[] {
      return Err(HttpError(404, NotFoundDetail));
    }
    var rec := statusData.value;
    if "status" !in rec {
      return Err(HttpError(500, "KeyError: 'status'"));
    }
    if rec["status"] == VStr("cleaned_up") {
      return Err(HttpError(410, GoneDetail));
    }
    if rec["status"] != VStr("completed") {
      return Err(HttpError(400, "Download not completed. Status: " + Str(rec["status"])));
    }
    var filename := Get(rec, "filename", VNone);
    if Truthy(filename) && !filename.VStr? && !filename.VTime? {
      return Err(HttpError(500, "TypeError: path component must be text"));
    }
    if !Truthy(filename) || filename.VTime? || filename.s !in disk {
      store.UpdateStatus(taskId, LazyCleanupUpdate);
      return Err(HttpError(410, ExpiredDetail));
    }
    r := Ok(FileReply(OutputPath(filename.s), filename.s));
  }

  /** The lazy transition is final: once a job was expired by a request,
      every later request answers 410, whatever is then on disk, and the
      record keeps every field the update does not name. */
  lemma {:induction false} ExpiryIsFinal(m: map<string, Record>, taskId: string, disk: set<string>, later: set<string>)
    requires DecideFile(Lookup(m, taskId), disk) == Expire
    ensures DecideFile(Lookup(Merged(m, taskId, LazyCleanupUpdate), taskId), later) == Refuse(HttpError(410, GoneDetail))
    ensures forall f :: f in m[taskId] && f !in LazyCleanupUpdate ==> Merged(m, taskId, LazyCleanupUpdate)[taskId][f] == m[taskId][f]
  {
    ChecksInOrder(Lookup(m, taskId), disk);
    var after := Merged(m, taskId, LazyCleanupUpdate);
    assert after[taskId]["status"] == VStr("cleaned_up");
    ChecksInOrder(Lookup(after, taskId), later);
  }

  /** A job whose file the retention sweep removed is answered with 410:
      the sweep leaves its record `cleaned_up`. */
  lemma {:induction false} SweptJobIsGone(m: map<string, Record>, filename: string, taskId: string, disk: set<string>)
    requires TaskIdOf(filename) == Some(taskId) && taskId in m && m[taskId] != map[]
    ensures DecideFile(Lookup(CleanedUp(m, filename), taskId), disk) == Refuse(HttpError(410, GoneDetail))
  {
    var after := CleanedUp(m, filename);
    assert after == Merged(m, taskId, CleanedUpUpdate);
    assert after[taskId]["status"] == VStr("cleaned_up");
    ChecksInOrder(Lookup(after, taskId), disk);
  }
}
