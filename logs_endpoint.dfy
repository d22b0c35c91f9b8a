/** The log endpoints of app/api/endpoints/logs.py.

    `get_logs_info` lists the `*.log` entries of the logs directory with
    their size, modification instant and download URL; `get_log_file`
    answers the last lines of one `.log` file. A log file is modelled as
    the sequence of its lines, each with its line terminator. */
module LogsEndpoint {
  import opened Common
  import opened Cleanup

  // ============================================================ get_logs_info

  const LogsDirectory: string := "logs"

  /** One listed log file. */
  datatype LogEntry = LogEntry(filename: string, sizeBytes: nat, modified: int, url: string)

  datatype LogsInfo = LogsInfo(logsDirectory: string, availableLogs: seq<LogEntry>, totalFiles: nat)

  function LogUrl(name: string): string { "/api/v1/logs/" + name }

  /** The names `glob("*.log")` yields, in listing order. */
  function GlobLogs(listing: seq<string>): (r: seq<string>)
    ensures forall n :: n in r <==> n in listing && EndsWith(n, ".log")
    ensures |r| <= |listing|
  {
    if listing == [] then []
    else
      var init := GlobLogs(listing[..|listing| - 1]);
      var last := listing[|listing| - 1];
      assert forall n :: n in listing <==> n in listing[..|listing| - 1] || n == last;
      if EndsWith(last, ".log") then init + [last] else init
  }

  /** Whether `stat` of a listed name succeeds. */
  predicate Stats(dir: Directory, name: string, faults: set<string>) {
    name in dir && name !in faults
  }

  /** The entries for `names` in order, or the first name whose `stat` raises. */
  function Entries(dir: Directory, names: seq<string>, faults: set<string>): (r: Result<seq<LogEntry>, string>)
    ensures r.Ok? <==> forall n :: n in names ==> Stats(dir, n, faults)
    ensures r.Ok? ==> |r.value| == |names|
    ensures r.Ok? ==> forall i :: 0 <= i < |names| ==>
                        names[i] in dir && r.value[i] == LogEntry(names[i], dir[names[i]].size, dir[names[i]].mtime, LogUrl(names[i]))
    ensures r.Err? ==> r.error in names && !Stats(dir, r.error, faults)
  {
    if names == [] then Ok([])
    else
      var init := names[..|names| - 1];
      var last := names[|names| - 1];
      assert forall n :: n in names <==> n in init || n == last;
      match Entries(dir, init, faults)
      case Err(n) => Err(n)
      case Ok(es) =>
        if !Stats(dir, last, faults) then Err(last)
        else Ok(es + [LogEntry(last, dir[last].size, dir[last].mtime, LogUrl(last))])
  }

  /** The answer of `get_logs_info`: an empty list when the directory is
      missing, 500 when some `stat` raises. */
  function LogsInfoOutcome(logsExist: bool, dir: Directory, listing: seq<string>, faults: set<string>)
    : (r: Result<LogsInfo, HttpError>)
    ensures r.Ok? ==> r.value.totalFiles == |r.value.availableLogs|
    ensures !logsExist ==> r == Ok(LogsInfo(LogsDirectory, [], 0))
  {
    if !logsExist then Ok(LogsInfo(LogsDirectory, [], 0))
    else match Entries(dir, GlobLogs(listing), faults)
      case Err(n) => Err(HttpError(500, "Error accessing logs: cannot stat " + n))
      case Ok(es) => Ok(LogsInfo(LogsDirectory, es, |es|))
  }

  /** `get_logs_info`: the loop appends one entry per matched name. */
  method GetLogsInfo(logsExist: bool, dir: Directory, listing: seq<string>, faults: set<string>)
    returns (r: Result<LogsInfo, HttpError>)
    ensures r == LogsInfoOutcome(logsExist, dir, listing, faults)
  {
    var logFiles: seq<LogEntry> := [];
    if logsExist {
      var names := GlobLogs(listing);
      var i := 0;
      while i < |names| && Stats(dir, names[i], faults)
        invariant 0 <= i <= |names|
        invariant Entries(dir, names[..i], faults) == Ok(logFiles)
      {
        var name := names[i];
        assert names[..i + 1][..i] == names[..i];
        logFiles := logFiles + [LogEntry(name, dir[name].size, dir[name].mtime, LogUrl(name))];
        i := i + 1;
      }
      if i < |names| {
        EntriesFailAt(dir, names, i, faults);
        return Err(HttpError(500, "Error accessing logs: cannot stat " + names[i]));
      }
      assert names[..i] == names;
    }
    r := Ok(LogsInfo(LogsDirectory, logFiles, |logFiles|));
  }

  /** The first name whose `stat` raises is the error of the whole listing. */
  lemma EntriesFailAt(dir: Directory, names: seq<string>, i: nat, faults: set<string>)
    requires i < |names| && Entries(dir, names[..i], faults).Ok? && !Stats(dir, names[i], faults)
    ensures Entries(dir, names, faults) == Err(names[i])
  {
    assert names[..i + 1][..i] == names[..i];
    EntriesErrorPersists(dir, names, i + 1, faults);
  }

  /** Once some prefix fails, every longer prefix fails with the same name. */
  lemma {:induction false} EntriesErrorPersists(dir: Directory, names: seq<string>, k: nat, faults: set<string>)
    requires k <= |names| && Entries(dir, names[..k], faults).Err?
    ensures Entries(dir, names, faults) == Entries(dir, names[..k], faults)
    decreases |names| - k
  {
    if k < |names| {
      assert names[..k + 1][..k] == names[..k];
      EntriesErrorPersists(dir, names, k + 1, faults);
    } else {
      assert names[..k] == names;
    }
  }

  /** Every listed `.log` name is answered, in listing order, with its URL
      under `/api/v1/logs/`, and `total_files` counts them. */
  lemma {:induction false} InfoListsEveryLog(dir: Directory, listing: seq<string>, faults: set<string>)
    requires forall n :: n in listing && EndsWith(n, ".log") ==> Stats(dir, n, faults)
    ensures var r := LogsInfoOutcome(true, dir, listing, faults);
            && r.Ok?
            && r.value.totalFiles == |GlobLogs(listing)|
            && (forall e :: e in r.value.availableLogs ==>
                  e.url == LogUrl(e.filename) && e.filename in listing && EndsWith(e.filename, ".log"))
  {
    var names := GlobLogs(listing);
    var es := Entries(dir, names, faults).value;
    forall e | e in es ensures e.url == LogUrl(e.filename) && e.filename in listing && EndsWith(e.filename, ".log") {
      var i :| 0 <= i < |es| && es[i] == e;
      assert e.filename == names[i];
    }
  }

  // ============================================================= get_log_file

  /** `all_lines[-k:]` with Python's slicing: a negative start counts from
      the end and is clamped at 0, a start past the end gives nothing. */
  function PySuffix(all: seq<string>, k: int): (r: seq<string>)
    ensures |r| <= |all| && r == all[|all| - |r|..]
  {
    var start := -k;
    if start >= 0 then (if start <= |all| then all[start..] else [])
    else if |all| + start >= 0 then all[|all| + start..]
    else all
  }

  /** The lines `get_log_file` answers for a request of `lines` lines. */
  function LastLines(all: seq<string>, lines: int): (r: seq<string>)
    ensures |r| <= |all| && r == all[|all| - |r|..]
  {
    if |all| > lines then PySuffix(all, lines) else all
  }

  /** The concatenation of lines: `''.join(...)`. */
  function Concat(ls: seq<string>): string {
    if ls == [] then "" else Concat(ls[..|ls| - 1]) + ls[|ls| - 1]
  }

  datatype LogFileReply = LogFileReply(filename: string, totalLines: nat, returnedLines: nat, requestedLines: int,
                                       content: string)

  /** `get_log_file`: `files` maps the names present in the logs directory
      to their lines, and reading the files in `readFaults` raises. */
  function GetLogFile(filename: string, lines: int, files: map<string, seq<string>>, readFaults: set<string>)
    : (r: Result<LogFileReply, HttpError>)
    ensures !EndsWith(filename, ".log") ==> r == Err(HttpError(400, "Only .log files are allowed"))
    ensures EndsWith(filename, ".log") && filename !in files ==> r == Err(HttpError(404, "Log file not found"))
    ensures r.Ok? ==> EndsWith(filename, ".log") && filename in files && filename !in readFaults
  {
    if !EndsWith(filename, ".log") then Err(HttpError(400, "Only .log files are allowed"))
    else if filename !in files then Err(HttpError(404, "Log file not found"))
    else if filename in readFaults then Err(HttpError(500, "Error reading log file: " + filename))
    else
      var all := files[filename];
      var last := LastLines(all, lines);
      Ok(LogFileReply(filename, |all|, |last|, lines, Concat(last)))
  }

  /** The number of lines `get_log_file` answers when the request names none. */
  const DefaultLines: int := 100

  /** `get_log_file` called without `lines`: the last 100 lines of a longer
      file, or the whole of a shorter one. */
  function GetLogFileDefault(filename: string, files: map<string, seq<string>>, readFaults: set<string>)
    : (r: Result<LogFileReply, HttpError>)
    ensures r.Ok? ==> r.value.requestedLines == DefaultLines
    ensures r.Ok? ==> r.value.returnedLines == if r.value.totalLines > DefaultLines then DefaultLines else r.value.totalLines
    ensures r.Ok? ==> filename in files && r.value.totalLines == |files[filename]|
  {
    if filename in files then
      TailOfPositiveRequest(files[filename], DefaultLines);
      GetLogFile(filename, DefaultLines, files, readFaults)
    else GetLogFile(filename, DefaultLines, files, readFaults)
  }

  /** For a positive request the answer is exactly the last `lines` lines of
      a longer file, and the whole of a shorter one. */
  lemma {:induction false} TailOfPositiveRequest(all: seq<string>, lines: int)
    requires lines >= 1
    ensures |all| > lines ==> LastLines(all, lines) == all[|all| - lines..]
    ensures |all| <= lines ==> LastLines(all, lines) == all
    ensures |LastLines(all, lines)| == if |all| > lines then lines else |all|
  {
  }

  /** A request for 0 lines answers the whole file, since `-0` is `0`, and a
      negative request drops that many lines from the start. */
  lemma {:induction false} TailOfOtherRequests(all: seq<string>, lines: int)
    requires lines <= 0
    ensures lines == 0 && all != [] ==> LastLines(all, lines) == all
    ensures lines < 0 ==> LastLines(all, lines) == if -lines <= |all| then all[-lines..] else []
  {
  }

  /** Concatenation distributes over a split of the lines. */
  lemma {:induction false} ConcatSplit(ls: seq<string>, k: nat)
    requires k <= |ls|
    ensures Concat(ls) == Concat(ls[..k]) + Concat(ls[k..])
    decreases |ls|
  {
    if k < |ls| {
      var init := ls[..|ls| - 1];
      ConcatSplit(init, k);
      assert init[..k] == ls[..k];
      assert ls[k..] == init[k..] + [ls[|ls| - 1]];
      assert ls[k..][..|ls[k..]| - 1] == init[k..];
    } else {
      assert ls[..k] == ls;
      assert ls[k..] == [];
    }
  }

  /** The answer counts the file's lines and the lines returned, echoes the
      request, and its content is a tail of the file's text: the text of the
      lines not returned followed by the content is the whole file. */
  lemma {:induction false} ReplyIsTailOfFile(filename: string, lines: int, files: map<string, seq<string>>,
                                             readFaults: set<string>)
    requires GetLogFile(filename, lines, files, readFaults).Ok?
    ensures var reply := GetLogFile(filename, lines, files, readFaults).value;
            var all := files[filename];
            && reply.filename == filename && reply.totalLines == |all| && reply.requestedLines == lines
            && reply.returnedLines <= reply.totalLines
            && Concat(all[..reply.totalLines - reply.returnedLines]) + reply.content == Concat(all)
  {
    var all := files[filename];
    var last := LastLines(all, lines);
    ConcatSplit(all, |all| - |last|);
  }
}
