/** The cron script standalone_cleanup.py: delete downloaded files older than
    a number of hours and log files older than a number of days, counting what
    was deleted, skipped and failed, and turn the outcome into an exit code.

    Each directory is a map from entry name to its stat, listed in a given
    order; `faults` names the files whose `stat` or `unlink` raises. */
module StandaloneCleanup {
  import opened Common
  import opened Storage
  import opened Cleanup

  /** What processing one listed file amounts to. */
  datatype FileOutcome = Deleted | Skipped | Errored

  predicate IsRegularFile(fs: Directory, name: string) {
    name in fs && fs[name].isFile
  }

  /** The regular files of a listing, in listing order. */
  function RegularFiles(fs: Directory, listing: seq<string>): (files: seq<string>)
    ensures forall n :: n in files <==> n in listing && IsRegularFile(fs, n)
    ensures Distinct(listing) ==> Distinct(files)
  {
    if listing == [] then []
    else
      var last := listing[|listing| - 1];
      var init := RegularFiles(fs, listing[..|listing| - 1]);
      assert forall n :: n in listing <==> n in listing[..|listing| - 1] || n == last;
      if IsRegularFile(fs, last) then init + [last] else init
  }

  /** The fate of a listed file; one that is gone by the time it is examined
      makes `stat` raise. */
  function OutcomeOf(fs: Directory, name: string, cutoff: int, faults: set<string>): FileOutcome {
    if name !in fs || name in faults then Errored
    else if fs[name].mtime < cutoff then Deleted
    else Skipped
  }

  /** How many of `names` have outcome `o`. */
  function CountOf(fs: Directory, names: seq<string>, cutoff: int, faults: set<string>, o: FileOutcome): (c: nat)
    ensures c <= |names|
  {
    if names == [] then 0
    else
      var last := names[|names| - 1];
      CountOf(fs, names[..|names| - 1], cutoff, faults, o) + (if OutcomeOf(fs, last, cutoff, faults) == o then 1 else 0)
  }

  /** The counters and freed size `cleanup_old_files` returns. */
  datatype FilesReport = FilesReport(deletedCount: nat, skippedCount: nat, errorCount: nat, totalSizeFreed: nat)

  /** The report on processing `files`: how many were deleted, skipped and
      failed, and the total size of the deleted ones. */
  function Report(fs: Directory, files: seq<string>, cutoff: int, faults: set<string>): FilesReport {
    var gone := StaleFiles(fs, files, cutoff, faults);
    FilesReport(|gone|, CountOf(fs, files, cutoff, faults, Skipped), CountOf(fs, files, cutoff, faults, Errored),
                SizeSum(fs, gone))
  }

  /** The directory after deleting the stale ones of `files`. */
  function Remaining(fs: Directory, files: seq<string>, cutoff: int, faults: set<string>): Directory {
    Without(fs, StaleFiles(fs, files, cutoff, faults))
  }

  /** The state after the files of `prefix`: the counters and the directory
      reflect exactly their outcomes. */
  ghost predicate Tallied(fs: Directory, prefix: seq<string>, cutoff: int, faults: set<string>,
                          report: FilesReport, dir: Directory)
  {
    report == Report(fs, prefix, cutoff, faults) && dir == Remaining(fs, prefix, cutoff, faults)
  }

  /** `cleanup_old_files(max_age_hours)` at instant `now`: None when the
      downloads directory does not exist or cannot be listed; otherwise the
      counters, with the stale regular files deleted. */
  method CleanupOldFiles(maxAgeHours: int, dirExists: bool, fs: Directory, listing: Option<seq<string>>,
                         now: int, faults: set<string>)
    returns (r: Option<FilesReport>, fsAfter: Directory)
    requires listing.Some? ==> Distinct(listing.value)
    ensures !dirExists || listing.None? ==> r.None? && fsAfter == fs
    ensures dirExists && listing.Some? ==>
              && r == Some(Report(fs, RegularFiles(fs, listing.value), now - maxAgeHours * 3600, faults))
              && fsAfter == Remaining(fs, RegularFiles(fs, listing.value), now - maxAgeHours * 3600, faults)
  {
    fsAfter := fs;
    if !dirExists || listing.None? {
      return None, fs;
    }
    var cutoffTime := now - maxAgeHours * 3600;
    var filesToProcess := RegularFiles(fs, listing.value);
    var report;
    report, fsAfter := ProcessFiles(fs, filesToProcess, cutoffTime, faults);
    r := Some(report);
  }

  /** The loop of `cleanup_old_files` over the regular files, in listing order. */
  method ProcessFiles(fs: Directory, files: seq<string>, cutoffTime: int, faults: set<string>)
    returns (report: FilesReport, fsAfter: Directory)
    requires Distinct(files) && forall n :: n in files ==> IsRegularFile(fs, n)
    ensures Tallied(fs, files, cutoffTime, faults, report, fsAfter)
  {
    report, fsAfter := FilesReport(0, 0, 0, 0), fs;
    var i := 0;
    while i < |files|
      invariant 0 <= i <= |files|
      invariant Tallied(fs, files[..i], cutoffTime, faults, report, fsAfter)
    {
      var name := files[i];
      TalliedStep(fs, files, i, cutoffTime, faults, report, fsAfter);
      report, fsAfter := ProcessFile(fs, name, cutoffTime, faults, report, fsAfter);
      i := i + 1;
    }
    assert files[..i] == files;
  }

  /** Processing one regular file: the counters and the directory after it. */
  function Step(fs: Directory, name: string, cutoff: int, faults: set<string>, report: FilesReport, dir: Directory)
    : (FilesReport, Directory)
    requires name in fs
  {
    match OutcomeOf(fs, name, cutoff, faults)
    case Errored => (report.(errorCount := report.errorCount + 1), dir)
    case Deleted => (report.(deletedCount := report.deletedCount + 1,
                             totalSizeFreed := report.totalSizeFreed + fs[name].size), dir - {name})
    case Skipped => (report.(skippedCount := report.skippedCount + 1), dir)
  }

  /** The `try` block for one regular file: `stat` it, then delete it when
      it is older than the cutoff, counting the outcome. */
  method ProcessFile(fs: Directory, name: string, cutoff: int, faults: set<string>, report: FilesReport,
                     dir: Directory)
    returns (report': FilesReport, dir': Directory)
    requires name in fs
    ensures (report', dir') == Step(fs, name, cutoff, faults, report, dir)
  {
    dir' := dir;
    if name in faults {
      report' := report.(errorCount := report.errorCount + 1);
    } else if fs[name].mtime < cutoff {
      var fileSize := fs[name].size;
      dir' := dir - {name};
      report' := report.(deletedCount := report.deletedCount + 1, totalSizeFreed := report.totalSizeFreed + fileSize);
    } else {
      report' := report.(skippedCount := report.skippedCount + 1);
    }
  }

  /** Processing the next file keeps the counters and the directory in step
      with the files processed so far. */
  lemma TalliedStep(fs: Directory, files: seq<string>, i: nat, cutoff: int, faults: set<string>,
                    report: FilesReport, dir: Directory)
    requires i < |files| && Distinct(files) && IsRegularFile(fs, files[i])
    requires Tallied(fs, files[..i], cutoff, faults, report, dir)
    ensures var next := Step(fs, files[i], cutoff, faults, report, dir);
            Tallied(fs, files[..i + 1], cutoff, faults, next.0, next.1)
  {
    var name := files[i];
    var next := Step(fs, name, cutoff, faults, report, dir);
    if name in faults {
      assert next == (report.(errorCount := report.errorCount + 1), dir);
      TalliedError(fs, files, i, cutoff, faults, report, dir);
    } else if fs[name].mtime < cutoff {
      assert next == (report.(deletedCount := report.deletedCount + 1,
                              totalSizeFreed := report.totalSizeFreed + fs[name].size), dir - {name});
      TalliedDelete(fs, files, i, cutoff, faults, report, dir);
    } else {
      assert next == (report.(skippedCount := report.skippedCount + 1), dir);
      TalliedSkip(fs, files, i, cutoff, faults, report, dir);
    }
  }

  /** One more file whose processing raises: only the error counter moves. */
  lemma TalliedError(fs: Directory, files: seq<string>, i: nat, cutoff: int, faults: set<string>,
                     report: FilesReport, dir: Directory)
    requires i < |files| && Distinct(files) && IsRegularFile(fs, files[i])
    requires Tallied(fs, files[..i], cutoff, faults, report, dir)
    requires files[i] in faults
    ensures Tallied(fs, files[..i + 1], cutoff, faults, report.(errorCount := report.errorCount + 1), dir)
  {
    StaleFilesSnoc(fs, files, i, cutoff, faults);
    CountOfSnoc(fs, files, i, cutoff, faults, Skipped);
    CountOfSnoc(fs, files, i, cutoff, faults, Errored);
  }

  /** One more file that is too recent: only the skipped counter moves. */
  lemma TalliedSkip(fs: Directory, files: seq<string>, i: nat, cutoff: int, faults: set<string>,
                    report: FilesReport, dir: Directory)
    requires i < |files| && Distinct(files) && IsRegularFile(fs, files[i])
    requires Tallied(fs, files[..i], cutoff, faults, report, dir)
    requires files[i] !in faults && fs[files[i]].mtime >= cutoff
    ensures Tallied(fs, files[..i + 1], cutoff, faults, report.(skippedCount := report.skippedCount + 1), dir)
  {
    StaleFilesSnoc(fs, files, i, cutoff, faults);
    CountOfSnoc(fs, files, i, cutoff, faults, Skipped);
    CountOfSnoc(fs, files, i, cutoff, faults, Errored);
  }

  /** One more file older than the cutoff: it leaves the directory, the
      deleted counter moves by one and the freed size by its size. */
  lemma TalliedDelete(fs: Directory, files: seq<string>, i: nat, cutoff: int, faults: set<string>,
                      report: FilesReport, dir: Directory)
    requires i < |files| && Distinct(files) && IsRegularFile(fs, files[i])
    requires Tallied(fs, files[..i], cutoff, faults, report, dir)
    requires files[i] !in faults && fs[files[i]].mtime < cutoff
    ensures Tallied(fs, files[..i + 1], cutoff, faults,
                    report.(deletedCount := report.deletedCount + 1,
                            totalSizeFreed := report.totalSizeFreed + fs[files[i]].size),
                    dir - {files[i]})
  {
    ReportOfDeleted(fs, files, i, cutoff, faults);
    RemainingOfDeleted(fs, files, i, cutoff, faults);
  }

  lemma ReportOfDeleted(fs: Directory, files: seq<string>, i: nat, cutoff: int, faults: set<string>)
    requires i < |files| && Distinct(files) && IsRegularFile(fs, files[i])
    requires files[i] !in faults && fs[files[i]].mtime < cutoff
    ensures var r := Report(fs, files[..i], cutoff, faults);
            Report(fs, files[..i + 1], cutoff, faults)
            == r.(deletedCount := r.deletedCount + 1, totalSizeFreed := r.totalSizeFreed + fs[files[i]].size)
  {
    StaleFilesSnoc(fs, files, i, cutoff, faults);
    CountOfSnoc(fs, files, i, cutoff, faults, Skipped);
    CountOfSnoc(fs, files, i, cutoff, faults, Errored);
    assert OutcomeOf(fs, files[i], cutoff, faults) == Deleted;
  }

  lemma RemainingOfDeleted(fs: Directory, files: seq<string>, i: nat, cutoff: int, faults: set<string>)
    requires i < |files| && Distinct(files) && IsRegularFile(fs, files[i])
    requires files[i] !in faults && fs[files[i]].mtime < cutoff
    ensures Remaining(fs, files[..i + 1], cutoff, faults) == Remaining(fs, files[..i], cutoff, faults) - {files[i]}
  {
    StaleFilesSnoc(fs, files, i, cutoff, faults);
    WithoutSnoc(fs, StaleFiles(fs, files[..i], cutoff, faults), files[i]);
  }

  lemma CountOfSnoc(fs: Directory, files: seq<string>, i: nat, cutoff: int, faults: set<string>, o: FileOutcome)
    requires i < |files|
    ensures CountOf(fs, files[..i + 1], cutoff, faults, o)
            == CountOf(fs, files[..i], cutoff, faults, o) + (if OutcomeOf(fs, files[i], cutoff, faults) == o then 1 else 0)
  {
    assert files[..i + 1][..i] == files[..i];
  }

  /** Every processed file moves exactly one of the three counters. */
  lemma {:induction false} CountersPartitionFiles(fs: Directory, files: seq<string>, cutoff: int, faults: set<string>)
    requires forall n :: n in files ==> n in fs && fs[n].isFile
    ensures |StaleFiles(fs, files, cutoff, faults)| + CountOf(fs, files, cutoff, faults, Skipped)
            + CountOf(fs, files, cutoff, faults, Errored) == |files|
  {
    if files != [] {
      CountersPartitionFiles(fs, files[..|files| - 1], cutoff, faults);
    }
  }

  // ------------------------------------------------------------- log files

  const CleanupLogName: string := "cleanup.log"

  /** The log files the log sweep deletes, in listing order: regular `.log`
      files other than the script's own log, modified strictly before the
      cutoff, whose deletion does not fail. */
  function DeletedLogs(fs: Directory, listing: seq<string>, cutoff: int, faults: set<string>): (gone: seq<string>)
    ensures forall n :: n in gone <==> n in listing && StaleLog(fs, n, cutoff, faults)
    ensures Distinct(listing) ==> Distinct(gone)
  {
    if listing == [] then []
    else
      var last := listing[|listing| - 1];
      var init := DeletedLogs(fs, listing[..|listing| - 1], cutoff, faults);
      assert forall n :: n in listing <==> n in listing[..|listing| - 1] || n == last;
      if StaleLog(fs, last, cutoff, faults) then init + [last] else init
  }

  predicate StaleLog(fs: Directory, name: string, cutoff: int, faults: set<string>) {
    EndsWith(name, ".log") && name != CleanupLogName && Stale(fs, name, cutoff, faults)
  }

  /** The logs directory after the sweep of `listing`. */
  function LogsRemaining(fs: Directory, listing: seq<string>, cutoff: int, faults: set<string>): Directory {
    Without(fs, DeletedLogs(fs, listing, cutoff, faults))
  }

  /** One more `.log` file of a listing without repetitions: it leaves the
      directory exactly when it is deleted. */
  lemma LogsRemainingStep(fs: Directory, files: seq<string>, i: nat, cutoff: int, faults: set<string>)
    requires i < |files| && Distinct(files)
    ensures StaleLog(fs, files[i], cutoff, faults) ==>
              LogsRemaining(fs, files[..i + 1], cutoff, faults) == LogsRemaining(fs, files[..i], cutoff, faults) - {files[i]}
    ensures !StaleLog(fs, files[i], cutoff, faults) ==>
              LogsRemaining(fs, files[..i + 1], cutoff, faults) == LogsRemaining(fs, files[..i], cutoff, faults)
  {
    var gone := DeletedLogs(fs, files[..i], cutoff, faults);
    assert files[..i + 1][..i] == files[..i];
    if StaleLog(fs, files[i], cutoff, faults) {
      WithoutSnoc(fs, gone, files[i]);
    }
  }

  /** What the pattern `*.log` matches among the regular files. */
  predicate IsLogFile(fs: Directory, name: string) {
    IsRegularFile(fs, name) && EndsWith(name, ".log")
  }

  /** The `*.log` regular files of a listing, in listing order. */
  function LogFiles(fs: Directory, listing: seq<string>): (files: seq<string>)
    ensures forall n :: n in files <==> n in listing && IsLogFile(fs, n)
    ensures Distinct(listing) ==> Distinct(files)
  {
    if listing == [] then []
    else
      var last := listing[|listing| - 1];
      var init := LogFiles(fs, listing[..|listing| - 1]);
      assert forall n :: n in listing <==> n in listing[..|listing| - 1] || n == last;
      if IsLogFile(fs, last) then init + [last] else init
  }

  /** `cleanup_old_logs(max_age_days)` at instant `now`; a logs directory that
      does not exist or cannot be listed is left alone. */
  method CleanupOldLogs(maxAgeDays: int, dirExists: bool, fs: Directory, listing: Option<seq<string>>,
                        now: int, faults: set<string>)
    returns (fsAfter: Directory)
    requires listing.Some? ==> Distinct(listing.value)
    ensures !dirExists || listing.None? ==> fsAfter == fs
    ensures dirExists && listing.Some? ==> fsAfter == LogsRemaining(fs, listing.value, now - maxAgeDays * 86400, faults)
  {
    fsAfter := fs;
    if !dirExists || listing.None? {
      return;
    }
    var cutoffTime := now - maxAgeDays * 86400;
    var logFiles := LogFiles(fs, listing.value);
    fsAfter := SweepLogFiles(fs, logFiles, cutoffTime, faults);
    LogFilesKeepRemaining(fs, listing.value, cutoffTime, faults);
  }

  /** The loop of `cleanup_old_logs` over the `.log` regular files, in
      listing order. */
  method SweepLogFiles(fs: Directory, logFiles: seq<string>, cutoffTime: int, faults: set<string>)
    returns (fsAfter: Directory)
    requires Distinct(logFiles) && forall n :: n in logFiles ==> IsLogFile(fs, n)
    ensures fsAfter == LogsRemaining(fs, logFiles, cutoffTime, faults)
  {
    fsAfter := fs;
    var i := 0;
    while i < |logFiles|
      invariant 0 <= i <= |logFiles|
      invariant fsAfter == LogsRemaining(fs, logFiles[..i], cutoffTime, faults)
    {
      var name := logFiles[i];
      LogsRemainingStep(fs, logFiles, i, cutoffTime, faults);
      fsAfter := SweepLog(fs, name, cutoffTime, faults, fsAfter);
      i := i + 1;
    }
    assert logFiles[..i] == logFiles;
  }

  /** Filtering to the `.log` regular files first leaves the same directory. */
  lemma LogFilesKeepRemaining(fs: Directory, listing: seq<string>, cutoff: int, faults: set<string>)
    ensures LogsRemaining(fs, listing, cutoff, faults) == LogsRemaining(fs, LogFiles(fs, listing), cutoff, faults)
  {
    LogFilesKeepDeleted(fs, listing, cutoff, faults);
  }

  /** The body of the loop of `cleanup_old_logs` for one `.log` file: the
      script's own log is skipped, and an old one whose deletion does not
      fail leaves the directory. */
  method SweepLog(fs: Directory, name: string, cutoffTime: int, faults: set<string>, dir: Directory)
    returns (dirAfter: Directory)
    requires IsLogFile(fs, name)
    ensures StaleLog(fs, name, cutoffTime, faults) ==> dirAfter == dir - {name}
    ensures !StaleLog(fs, name, cutoffTime, faults) ==> dirAfter == dir
  {
    dirAfter := dir;
    if name == CleanupLogName {
      return;
    }
    if name !in faults && fs[name].mtime < cutoffTime {
      dirAfter := dir - {name};
    }
  }

  /** Filtering to the `.log` regular files first does not change which logs are deleted. */
  lemma {:induction false} LogFilesKeepDeleted(fs: Directory, listing: seq<string>, cutoff: int, faults: set<string>)
    ensures DeletedLogs(fs, listing, cutoff, faults) == DeletedLogs(fs, LogFiles(fs, listing), cutoff, faults)
  {
    if listing != [] {
      var init := listing[..|listing| - 1];
      var last := listing[|listing| - 1];
      LogFilesKeepDeleted(fs, init, cutoff, faults);
      if IsLogFile(fs, last) {
        assert LogFiles(fs, listing) == LogFiles(fs, init) + [last];
        assert (LogFiles(fs, init) + [last])[..|LogFiles(fs, init)|] == LogFiles(fs, init);
      }
    }
  }

  /** The script's own log survives every log sweep, and so does every entry
      that is not a `.log` file. */
  lemma {:induction false} LogSweepSparesOwnLog(fs: Directory, listing: seq<string>, cutoff: int, faults: set<string>,
                                                name: string)
    requires name in fs && (name == CleanupLogName || !EndsWith(name, ".log"))
    ensures var after := LogsRemaining(fs, listing, cutoff, faults);
            name in after && after[name] == fs[name]
  {
    var gone := DeletedLogs(fs, listing, cutoff, faults);
    assert name !in gone;
  }

  // ------------------------------------------------------------------ main

  /** `main`: the five-hour file sweep, then the thirty-day log sweep; exit
      code 0 when the file sweep produced its report and 1 otherwise. The
      files whose calls raise are named per directory. */
  method RunCleanup(downloadsExist: bool, downloads: Directory, downloadsListing: Option<seq<string>>,
                    downloadsFaults: set<string>, logsExist: bool, logs: Directory,
                    logsListing: Option<seq<string>>, logsFaults: set<string>, now: int)
    returns (exitCode: int, downloadsAfter: Directory, logsAfter: Directory)
    requires downloadsListing.Some? ==> Distinct(downloadsListing.value)
    requires logsListing.Some? ==> Distinct(logsListing.value)
    ensures exitCode == 0 <==> downloadsExist && downloadsListing.Some?
    ensures exitCode == 1 <==> !(downloadsExist && downloadsListing.Some?)
    ensures downloadsExist && downloadsListing.Some? ==>
              downloadsAfter
              == Remaining(downloads, RegularFiles(downloads, downloadsListing.value), now - 5 * 3600, downloadsFaults)
    ensures !downloadsExist || downloadsListing.None? ==> downloadsAfter == downloads
    ensures logsExist && logsListing.Some? ==>
              logsAfter == LogsRemaining(logs, logsListing.value, now - 30 * 86400, logsFaults)
    ensures !logsExist || logsListing.None? ==> logsAfter == logs
  {
    var videoCleanupResult;
    videoCleanupResult, downloadsAfter := CleanupOldFiles(5, downloadsExist, downloads, downloadsListing, now,
                                                          downloadsFaults);
    logsAfter := CleanupOldLogs(30, logsExist, logs, logsListing, now, logsFaults);
    if videoCleanupResult.Some? {
      exitCode := 0;
    } else {
      exitCode := 1;
    }
  }
}
