# Video download service: a verified model

This project models the control logic of a FastAPI service that downloads
videos with yt-dlp, and proves properties of that model. The service:

- accepts a download request;
- checks the URL and recognises its platform;
- keeps one job record per task id in an in-memory store;
- runs the download in the background, trying per-platform extraction
  strategies in order;
- records the outcome, and serves the file while it is retained;
- sweeps old files, their records and expired records.

A legacy single-file version of the same service (`main.py`) and a cron
cleanup script are modelled as well.

The model is organised as one module per source file:

| module | file | what it holds |
|---|---|---|
| `Common` | common.dfy | records as `map<string, Value>`, the HTTP error, ASCII case and whitespace helpers, substring search |
| `Models` | models.dfy | the `DownloadType` and `VideoQuality` enumerations, the request defaults and the `DownloadStatus` schema |
| `Validation` | validation.dfy | `is_valid_url`, `validate_url_platform` and `categorize_error` |
| `Storage` | storage.dfy | the class `DownloadStorage` over a map from task id to record, and the expiry sweep |
| `DownloadService` | download_service.dfy | format strings, cookie files, headers, yt-dlp options, strategy lists, the attempt loop and the record updates |
| `Cleanup` | cleanup.dfy | the retention sweep of the service |
| `StandaloneCleanup` | standalone_cleanup.dfy | the cron script |
| `DownloadEndpoint`, `StatusEndpoint`, `CookiesEndpoint`, `LogsEndpoint` | *_endpoint.dfy | the four routers |
| `LegacyMain` | legacy_main.dfy | the legacy application, as a class holding its `download_status` table |

## How the outside world is represented

- **Time.** Time is an integer number of seconds. `now` is a parameter.
  - A stored ISO timestamp is `VTime(t)`.
  - Any other text in a timestamp field is an unparseable string.
- **Floats.** A finite float is `VFloat(mantissa, exponent)`, exactly
  `mantissa / 10^exponent`.
- **The yt-dlp engine.** The engine is a function parameter from a URL and an
  option dictionary to `Success(info)` or `Failure(msg)`.
- **Directories.**
  - A directory is a map from entry name to its stat: is-file flag,
    modification time and size.
  - The order in which a directory lists its entries is a parameter.
  - The files whose `stat` or `unlink` raises are named by a `faults`
    parameter, one per directory.
- **Other parameters.**
  - The random task id.
  - The filename time stamp.
  - The browser cookie options.
  - The cookie-file validator.
  - Whether a write or removal raises.
- **HTTP errors.** An HTTP error is `HttpError(code, detail)`. An exception
  the source lets escape from a route (FastAPI answers 500) is an
  `HttpError(500, …)` naming the exception.

## Model

| member | source | states |
|---|---|---|
| Models.DownloadTypeRoundTrip | app/models/download.py:10-14 | parsing a text gives a download type exactly when that type's value is the text: the enumeration is exactly {single, playlist, album} |
| Models.QualityRoundTrip | app/models/download.py:17-24 | parsing a text gives a quality exactly when that quality's value is the text: the enumeration is exactly {360p, 480p, 720p, 1080p, 1440p, best} |
| Models.ParseDownloadType | app/models/download.py:10-14 | a text is accepted as a download type exactly when it is one of the three values |
| Models.ParseQuality | app/models/download.py:17-24 | a text is accepted as a quality exactly when it is one of the six values |
| Models.RequestWithDefaults | app/models/download.py:27-31 | a request naming only its URL has type `single` and quality `720p` |
| Models.StatusSchemaShape | app/models/download.py:45-62 | a record without `status` never validates as a DownloadStatus; a record of exactly the required fields, all text, does |
| Validation.ValidUrlNeedsScheme | app/utils/validation.py:13-23 | every URL the pattern accepts begins with `http://` or `https://` in any case |
| Validation.HostShapeAccepted | app/utils/validation.py:13-23 | every URL made of an `http://` or `https://` scheme in any letter case, a domain, `localhost` or dotted-quad host, an optional all-digit port, and an empty end or a path or query start without whitespace, is accepted |
| Validation.NonHostRejected | app/utils/validation.py:13-23 | after either scheme, a URL whose leading run of host characters is not a domain, `localhost` or dotted quad is rejected, whatever follows |
| Validation.AuthorityShape | app/utils/validation.py:13-23 | a host, an optional all-digit port and a path end form an authority-and-path the pattern matches |
| Validation.HostPart | app/utils/validation.py:13-23 | the pattern's greedy host run stops exactly at the end of a host followed by a port-and-path |
| Validation.HostRun | app/utils/validation.py:15-18 | the longest prefix of host characters: all of it is host characters and the next character is not |
| Validation.FirstPlatform | app/utils/validation.py:38-41 | the index found has a pattern in the text and no earlier platform has one |
| Validation.ValidateUrlPlatform | app/utils/validation.py:25-47 | supported exactly when there is no message and exactly when the platform is not `unknown`; the unsupported answer carries the fixed message |
| Validation.PlatformIsFirstMatch | app/utils/validation.py:27-41 | the answer is platform i exactly when one of its patterns occurs in the lower-cased URL and no earlier platform's does |
| Validation.UnknownIffNoPattern | app/utils/validation.py:38-47 | the answer is unsupported exactly when no pattern of any platform occurs in the URL |
| Validation.PlatformIgnoresCase | app/utils/validation.py:40 | two URLs equal up to case get the same answer |
| Validation.NetflixIsTwitter | app/utils/validation.py:31-40 | the unanchored search classifies a `netflix.com` URL as twitter, through the `x.com` inside it |
| Validation.FirstRuleFrom | app/utils/validation.py:53-190 | the rule found holds of the text, and no rule before it holds |
| Validation.Classify | app/utils/validation.py:53-190 | the category's position in the chain is the index of the first rule that holds, or the end of the chain when none holds |
| Validation.Category | app/utils/validation.py:51-190 | the category's position in the chain is the first rule that holds of the lower-cased message |
| Validation.CategorizeError | app/utils/validation.py:49-190 | the category reported is the one the rule chain assigns to the message, and the user message and suggestion are that category's fixed texts |
| Validation.CategoryIsFirstMatch | app/utils/validation.py:53-190 | the category reported has rank r exactly when rule r is the first rule that holds of the lower-cased message |
| Validation.FirstRuleIsUnique | app/utils/validation.py:53-190 | the search stops at rule r exactly when rule r holds (or r is the end) and no earlier rule holds |
| Validation.RuleRank | app/utils/validation.py:53-190 | each rule's category sits at that rule's position, so the category reported determines the rule that fired |
| Validation.CaughtBy | app/utils/validation.py:53-190 | a message that some rule holds of is caught at that rule or earlier |
| Validation.UnmatchedIsGeneral | app/utils/validation.py:185-190 | the category is GENERAL_ERROR exactly when no rule holds |
| Validation.CategoryIgnoresCase | app/utils/validation.py:51 | two messages equal up to case get the same answer |
| Validation.YoutubeUnavailableBeforePrivate | app/utils/validation.py:93-131 | a message naming YouTube and "video unavailable" is never PRIVATE_VIDEO, and is YOUTUBE_UNAVAILABLE unless it also names Instagram, Facebook or TikTok |
| Validation.WebpageIsCaughtByAge | app/utils/validation.py:143-167 | any message mentioning "webpage" is caught at AGE_RESTRICTED or earlier, so never VIDEO_NOT_FOUND |
| Validation.StreamBeforeAuthentication | app/utils/validation.py:173-179 | any message mentioning "stream" is caught at LIVE_STREAM or earlier, so never AUTH_REQUIRED or GENERAL_ERROR |
| Storage.CheckExpiry | app/core/storage.py:51-58 | a record counts as expired exactly when its `expires_at` parses to an instant strictly before now; a falsy `expires_at` never expires |
| Storage.ExpiredIds | app/core/storage.py:50-56 | the ids collected are exactly the stored ids whose record is expired |
| Storage.Merged | app/core/storage.py:29-33 | an update overwrites only the given keys of that record, keeps every other key and every other record, and creates nothing for an unknown id |
| Storage.Swept | app/core/storage.py:60-61 | the sweep removes exactly the expired ids and keeps every other record unchanged |
| Storage.DownloadStorage.constructor | app/core/storage.py:17-18 | the store starts empty |
| Storage.DownloadStorage.SetStatus | app/core/storage.py:20-23 | the record for the id is replaced as a whole |
| Storage.DownloadStorage.GetStatus | app/core/storage.py:25-27 | the stored record, or None for an unknown id |
| Storage.DownloadStorage.UpdateStatus | app/core/storage.py:29-33 | the store becomes the merge of the updates into that record |
| Storage.DownloadStorage.DeleteStatus | app/core/storage.py:35-39 | only that id is removed; an unknown id changes nothing |
| Storage.DownloadStorage.GetAllStatuses | app/core/storage.py:41-43 | the whole table: a new dictionary holding every task's record, so adding or removing tasks later does not change it |
| Storage.DownloadStorage.CollectExpired | app/core/storage.py:48-58 | the first pass lists each expired id once, and fails exactly when some `expires_at` is truthy but not text |
| Storage.DownloadStorage.CleanupExpired | app/core/storage.py:45-66 | without a bad expiry the store becomes the sweep and the count is the number of expired ids; with one, the store is unchanged |
| Storage.DownloadStorage.DeleteAll | app/core/storage.py:60-61 | the second pass removes exactly the listed ids |
| Storage.SweepIsIdempotent | app/core/storage.py:50-61 | a second sweep at the same instant finds nothing and changes nothing |
| Storage.SweepKeepsLive | app/core/storage.py:51-58 | a record survives exactly when it is not expired; one with no, unparseable or future expiry is kept unchanged |
| Storage.ExpiredIdsGrowWithTime | app/core/storage.py:55 | sweeping later removes at least what sweeping earlier does |
| Storage.SweptIsWithout | app/core/storage.py:60-61 | deleting the collected ids one by one leaves exactly the sweep |
| DownloadService.FormatString | app/services/download.py:46-50 | `best` gives `best[ext=mp4]/best`; any other quality gives the six-alternative chain with the `p`-less height; every format ends in `/best` |
| DownloadService.HeightHasNoP | app/services/download.py:49-50 | the height placed in the chain contains no `p` |
| DownloadService.CookieCandidates | app/services/download.py:173-182 | exactly the six platforms have cookie candidates |
| DownloadService.FirstUsable | app/services/download.py:183-186 | the candidate found exists with more than 100 bytes, and no earlier one does |
| DownloadService.CookieFile | app/services/download.py:171-188 | a file returned is a usable candidate of the platform; None exactly when the platform has no candidates or none is usable |
| DownloadService.CookieFileIsFirstUsable | app/services/download.py:183-186 | candidate i is returned exactly when it is usable and no earlier candidate is |
| DownloadService.HttpHeaders | app/services/download.py:130-169 | the base headers are always present, kept where the platform adds nothing; Referer is set exactly for Instagram, Facebook and TikTok |
| DownloadService.ConfigureYdlOptions | app/services/download.py:87-128 | `cookiefile` is present exactly when the platform has a usable cookie file, and then names it |
| DownloadService.PlatformOptions | app/services/download.py:110-119 | the platform layer sets exactly the headers and the DASH flag |
| DownloadService.JobOptions | app/services/download.py:90-91 | the job layer sets exactly the output template and the format |
| DownloadService.LayeredKeepsFixed | app/services/download.py:89-121 | layering the platform and job options over the fixed ones keeps every fixed value |
| DownloadService.LayeredKeepsJobAndPlatform | app/services/download.py:90-119 | the platform and job values end up in the options unchanged |
| DownloadService.ConfiguredJobAndPlatform | app/services/download.py:89-121 | the options hold the job's output path and format, the platform's headers, and the DASH flag set exactly for YouTube |
| DownloadService.ConfiguredKeepsFixed | app/services/download.py:89-121 | every fixed option keeps its value |
| DownloadService.Layered | app/services/download.py:89-126 | each layer keeps what the earlier ones set for keys it does not name; the cookie file is added exactly when there is one |
| DownloadService.ExtractionStrategies | app/services/download.py:223-260 | Instagram, Facebook and TikTok get four strategies ending in `generic_fallback`; YouTube gets exactly android, web, ios; any other platform gets `default` with no options, then `generic_fallback`; a generic fallback is present exactly when the platform is not YouTube |
| DownloadService.MergeOptions | app/services/download.py:203 | the strategy's keys win and every other base key stays |
| DownloadService.StrategiesKeepOutputAndCookies | app/services/download.py:198-260 | no strategy of any platform changes the output template, the format, the merge format or the cookie file |
| DownloadService.StrategyLeavesOutputAlone | app/services/download.py:223-260 | each strategy of each platform leaves the output template, format, merge format and cookie file unset |
| DownloadService.FirstSuccess | app/services/download.py:198-212 | the strategy found succeeds and none before it does |
| DownloadService.FirstSuccessAt | app/services/download.py:198-212 | a strategy that succeeds with no earlier success is the one the loop stops at |
| DownloadService.AttemptCount | app/services/download.py:198-217 | the loop never makes more attempts than there are strategies |
| DownloadService.TryStrategiesMeaning | app/services/download.py:197-221 | the attempts return the info of the first strategy that succeeds; when none does, they fail with "Unable to download video: " and the last strategy's error |
| DownloadService.TryInOrder | app/services/download.py:197-221 | the loop's outcome is that of the attempts, and the strategies called are exactly those up to the first success, in order |
| DownloadService.PerformDownload | app/services/download.py:190-221 | the strategies of the URL's platform are tried in order, whatever the download type |
| DownloadService.FailedUpdate | app/services/download.py:77-84 | a failure writes status `failed` with the classifier's category, user message and suggestion for the error text |
| DownloadService.DownloadFields | app/services/download.py:605-617 | a completed record is `completed`, names its file, is served from `/api/v1/download/<id>`, and expires five hours after its creation |
| DownloadService.InfoFields | app/services/download.py:593-597 | the title defaults to "Unknown Video", and the URL is the info's `url` when truthy and its `webpage_url` otherwise |
| DownloadService.LastFileDecides | app/services/download.py:74-75 | after several matching files, the record is the last file's update over the record before; other records are untouched |
| DownloadService.Matching | app/services/download.py:69 | the names kept are exactly the listed names starting with the prefix |
| DownloadService.Completions | app/services/download.py:74-75 | recording files changes no set of task ids |
| DownloadService.AfterAttempt | app/services/download.py:66-84 | recording an attempt changes no set of task ids |
| DownloadService.DownloadOutcome | app/services/download.py:38-84 | a whole download changes no set of task ids |
| DownloadService.DownloadVideo | app/services/download.py:34-85 | the store becomes the outcome of marking the job processing, running the attempts, and then recording the failure, the missing file, or each matching file |
| DownloadService.RecordAttempt | app/services/download.py:66-84 | an engine failure, or no matching file, writes the failure update; otherwise each file is recorded |
| DownloadService.RecordFiles | app/services/download.py:74-75 | the loop applies one completed update per matching file, in order |
| DownloadService.RecordFile | app/services/download.py:75 | one iteration extends the recorded files by the next one |
| DownloadService.FailureIsCategorised | app/services/download.py:77-84 | a failed job ends `failed`, with the classifier's category, message and suggestion and every other field kept |
| DownloadService.CompletionIsRecorded | app/services/download.py:69-75 | a successful job with a file ends `completed`, with its download URL, the last file's name and expiry five hours after now |
| DownloadService.UnknownJobUntouched | app/services/download.py:38-84 | a job without a record is never recreated |
| DownloadService.MissingFileIsNotFound | app/services/download.py:71-78 | the "Downloaded file not found" error is classified VIDEO_NOT_FOUND |
| Cleanup.StaleFiles | app/services/cleanup.py:30-41 | the files the sweep deletes are exactly the listed regular files older than the cutoff whose deletion does not fail |
| Cleanup.TaskIdOf | app/services/cleanup.py:66-67 | a task id exists exactly when the name has a `_`; it is the text before the first `_` |
| Cleanup.CleanupDownloadStatus | app/services/cleanup.py:63-77 | the store becomes the cleaned-up merge for the file's task |
| Cleanup.CleanedUp | app/services/cleanup.py:63-77 | cleaning up after one file changes no set of task ids |
| Cleanup.CleanedUpAll | app/services/cleanup.py:48 | cleaning up after every deleted file changes no set of task ids |
| Cleanup.CleanupOldFiles | app/services/cleanup.py:20-61 | the counters are the number and total size of the stale files; the directory loses exactly those files; their tasks are cleaned up; an unlistable directory re-raises and changes nothing |
| Cleanup.SweepListing | app/services/cleanup.py:30-51 | after the loop, the counters, directory and store reflect exactly the stale entries of the listing |
| Cleanup.SweepEntry | app/services/cleanup.py:31-51 | one entry: a stale file is counted, removed and cleans its task; any other entry changes nothing |
| Cleanup.SweptPrefixExtends | app/services/cleanup.py:30-51 | sweeping one more entry keeps the state in step with the entries swept so far |
| Cleanup.EntryUntouched | app/services/cleanup.py:30-48 | an entry not yet reached is still in the directory with its original stat |
| Cleanup.CleanupExpiredStatuses | app/services/cleanup.py:79-86 | the store's sweep happens, and its error is swallowed with the store unchanged |
| Cleanup.DeletedIffOlder | app/services/cleanup.py:24-36 | a listed file is deleted exactly when it is a regular file modified strictly before now minus five hours and its deletion does not fail; survivors keep their stat |
| Cleanup.SecondSweepDeletesNothing | app/services/cleanup.py:30-51 | a second sweep at the same cutoff deletes nothing |
| Cleanup.NothingStaleNothingGone | app/services/cleanup.py:36 | a listing with no stale file deletes nothing |
| Cleanup.FreedAtMostListed | app/services/cleanup.py:38-43 | the size freed never exceeds the size of everything listed |
| Cleanup.DeletedFileCleansItsTask | app/services/cleanup.py:63-77 | a task with a deleted file and a non-empty record ends `cleaned_up` without a download URL, whatever its status was, with its other fields kept |
| Cleanup.UntouchedTaskKept | app/services/cleanup.py:63-77 | a record no deleted file points to, or an empty record, is unchanged |
| Cleanup.KeepsFieldsOutsideUpdate | app/services/cleanup.py:72-76 | every field the cleanup update does not name keeps its value |
| StandaloneCleanup.RegularFiles | standalone_cleanup.py:71 | the files processed are exactly the listed regular files |
| StandaloneCleanup.CleanupOldFiles | standalone_cleanup.py:48-118 | None when the directory is missing or unlistable; otherwise the report of the regular files against now minus the maximum age, with the stale ones deleted |
| StandaloneCleanup.ProcessFiles | standalone_cleanup.py:74-98 | after the loop, the counters and directory reflect exactly the outcome of each file |
| StandaloneCleanup.ProcessFile | standalone_cleanup.py:75-98 | one file moves exactly one counter; a deleted file also adds its size and leaves the directory |
| StandaloneCleanup.TalliedStep | standalone_cleanup.py:74-98 | processing one more file keeps the counters and directory in step with the files processed |
| StandaloneCleanup.CountOf | standalone_cleanup.py:74-98 | no counter exceeds the number of files |
| StandaloneCleanup.TalliedDelete | standalone_cleanup.py:80-87 | a stale file that deletes moves the deleted counter, adds its size and leaves the directory |
| StandaloneCleanup.TalliedSkip | standalone_cleanup.py:91-92 | a recent file moves the skipped counter only |
| StandaloneCleanup.TalliedError | standalone_cleanup.py:96-98 | a file whose calls raise moves the error counter only |
| StandaloneCleanup.ReportOfDeleted | standalone_cleanup.py:80-87 | the report after a deleted file adds one deletion and its size |
| StandaloneCleanup.RemainingOfDeleted | standalone_cleanup.py:80-87 | the directory after a deleted file loses that file only |
| StandaloneCleanup.CountersPartitionFiles | standalone_cleanup.py:74-98 | deleted, skipped and errored add up to the number of files processed |
| StandaloneCleanup.DeletedLogs | standalone_cleanup.py:142-158 | the logs deleted are exactly the listed regular `.log` files, other than the script's own log, older than the cutoff, whose deletion does not fail |
| StandaloneCleanup.CleanupOldLogs | standalone_cleanup.py:121-172 | a missing or unlistable logs directory is left alone; otherwise exactly the deleted logs leave it |
| StandaloneCleanup.SweepLogFiles | standalone_cleanup.py:145-163 | after the loop, the directory lacks exactly the stale logs |
| StandaloneCleanup.SweepLog | standalone_cleanup.py:146-158 | one log: the script's own log is skipped; a stale one leaves the directory |
| StandaloneCleanup.LogFilesKeepRemaining | standalone_cleanup.py:142 | filtering to the `.log` regular files first leaves the same directory |
| StandaloneCleanup.LogFiles | standalone_cleanup.py:142 | exactly the listed regular `.log` files, with no name twice |
| StandaloneCleanup.LogFilesKeepDeleted | standalone_cleanup.py:142-154 | filtering to the `.log` regular files first deletes the same logs |
| StandaloneCleanup.LogsRemainingStep | standalone_cleanup.py:145-158 | one more log removes it from the directory exactly when it is stale |
| StandaloneCleanup.LogSweepSparesOwnLog | standalone_cleanup.py:143-148 | the script's own log, and every entry that is not a `.log` file, survives |
| StandaloneCleanup.RunCleanup | standalone_cleanup.py:175-195 | exit code 0 exactly when the file sweep produced its report, 1 otherwise; the files older than 5 hours and the logs older than 30 days are removed, each directory with its own failing files; a directory that is missing or cannot be listed is left as it was |
| DownloadEndpoint.Refusal | app/api/endpoints/download.py:26-35 | a request is refused exactly when its URL is invalid (400 with the format detail) or its platform unsupported (400 with the classifier's message) |
| DownloadEndpoint.InitiateDownload | app/api/endpoints/download.py:19-82 | a refused request leaves the store unchanged; an accepted one stores the initial record under the new id and answers `initiated` |
| DownloadEndpoint.InitialRecordIsInitiated | app/api/endpoints/download.py:45-57 | a new record is `initiated`, with no URL, file or counts, and expires five hours after its creation |
| DownloadEndpoint.InitialRecordConforms | app/api/endpoints/download.py:45-57 | a new record validates as a DownloadStatus |
| DownloadEndpoint.ResponseAgreesWithRecord | app/api/endpoints/download.py:55-82 | the answer repeats the record's id, status, message, type, quality and expiry instant |
| DownloadEndpoint.DecideFile | app/api/endpoints/download.py:87-114 | a file served is non-empty and present in the downloads directory |
| DownloadEndpoint.ChecksInOrder | app/api/endpoints/download.py:87-114 | unknown id 404, `cleaned_up` 410, any other unfinished status 400; a completed job is served exactly when its file name is text naming a file present, and expired exactly when the name is empty, a timestamp, or text missing from the directory |
| DownloadEndpoint.DownloadFile | app/api/endpoints/download.py:84-119 | serves the recorded file, refuses with the decision's error, or marks the record `cleaned_up` and answers 410, changing nothing else |
| DownloadEndpoint.ExpiryIsFinal | app/api/endpoints/download.py:104-112 | once expired, every later request answers 410 whatever is on disk, and the record keeps the fields the update does not name |
| DownloadEndpoint.SweptJobIsGone | app/api/endpoints/download.py:92-96 | a job whose file the retention sweep removed is answered with 410 |
| StatusEndpoint.Whitelisted | app/api/endpoints/status.py:24-31 | exactly the schema fields of the record, with their stored values |
| StatusEndpoint.WithIntDuration | app/api/endpoints/status.py:34-38 | a present non-None duration becomes `int` of it (a float truncated toward zero), or 0 when it does not convert; every other field is unchanged |
| Common.PyInt | app/api/endpoints/status.py:36 | `int` of an integer is the integer itself; `int` of a float always converts, to the integer toward zero less than one unit away |
| Common.TruncatesTowardZero | app/api/endpoints/status.py:33-36 | truncating `mantissa / 10^exponent` keeps its sign and drops less than one unit |
| StatusEndpoint.IntTextRoundTrip | app/api/endpoints/status.py:36 | the decimal text of any integer, negative ones included, converts back to that integer |
| StatusEndpoint.UnsignedTextRoundTrip | app/api/endpoints/status.py:36 | the decimal text of a natural number converts back to it |
| StatusEndpoint.NegativeTextRoundTrip | app/api/endpoints/status.py:36 | the text of a negative integer, minus sign first, converts back to it |
| Common.SignedDecimal | app/api/endpoints/status.py:36 | converts exactly the texts made of an optional sign and one or more ASCII digits; the result is negative only after a minus sign, and never positive after one |
| StatusEndpoint.PopMetadata | app/api/endpoints/status.py:43-45 | the loop removes exactly the five metadata fields and keeps every other field |
| StatusEndpoint.Fallback | app/api/endpoints/status.py:54-66 | the fallback holds only schema fields, no metadata, and the stored status or `unknown` |
| StatusEndpoint.FallbackRequired | app/api/endpoints/status.py:55-59 | the required fields, with the stored status or `unknown` |
| StatusEndpoint.FallbackOptional | app/api/endpoints/status.py:60-66 | the optional part of the fallback holds exactly the optional fields it copies |
| StatusEndpoint.FallbackFieldsInSchema | app/api/endpoints/status.py:54-66 | the fallback's fields are schema fields, none of them metadata, and `status` is a required one |
| StatusEndpoint.StatusView | app/api/endpoints/status.py:17-68 | a missing or empty record gives 404; every answer validates as a DownloadStatus |
| StatusEndpoint.GetDownloadStatus | app/api/endpoints/status.py:14-68 | the answer is the view of the stored record |
| StatusEndpoint.ViewIsWhitelisted | app/api/endpoints/status.py:24-45 | every answer holds only schema fields, and withholds the metadata of a job that is neither completed nor cleaned up |
| StatusEndpoint.ShapedPassesThrough | app/api/endpoints/status.py:31-47 | every schema field except `duration` is answered unchanged, metadata included exactly when the job is completed or cleaned up |
| StatusEndpoint.DurationIsInteger | app/api/endpoints/status.py:34-38 | a finished job's duration is answered as its integer value, a float truncated toward zero, or 0 |
| StatusEndpoint.MissingStatusFallsBack | app/api/endpoints/status.py:49-68 | a record without `status` is answered through the fallback, with status `unknown` |
| CookiesEndpoint.NormaliseIsIdempotent | app/api/endpoints/cookies.py:36 | normalising a normalised platform name changes nothing |
| CookiesEndpoint.DestinationNames | app/api/endpoints/cookies.py:41-49 | exactly the six supported platforms have a destination, and it is `<platform>.com_cookies.txt` |
| CookiesEndpoint.DestinationOf | app/api/endpoints/cookies.py:41-49 | a supported platform's file is `<platform>.com_cookies.txt`; any other platform has none |
| CookiesEndpoint.DestinationIsFirstCandidate | app/api/endpoints/cookies.py:41-49 | the platforms that take uploads are those the download service has cookie candidates for, and the destination is their first candidate |
| CookiesEndpoint.UploadCookiesAsWritten | app/api/endpoints/cookies.py:26-70 | as written: unsupported 400 and write failure 500 change nothing; any written upload ends with 500 and the file left in place |
| CookiesEndpoint.UploadCookies | app/api/endpoints/cookies.py:26-70 | the answer and the cookie directory are those of the upload outcome |
| CookiesEndpoint.AcceptedUpload | app/api/endpoints/cookies.py:36-70 | accepted exactly when the normalised platform is supported, the write succeeds and the content validates; then the reply is `ok` with the normalised platform and the content size, and the platform's file holds the content |
| CookiesEndpoint.UploadTouchesOneFile | app/api/endpoints/cookies.py:49-67 | no file but the platform's cookie file changes |
| CookiesEndpoint.RefusedUploadChangesNothing | app/api/endpoints/cookies.py:37-57 | an unsupported platform (400) or a failed write leaves the directory unchanged (a failed write is taken to fail before the file is opened) |
| CookiesEndpoint.RejectedUploadIsRemoved | app/api/endpoints/cookies.py:61-67 | an invalid file is answered 400 and removed, unless the removal fails |
| CookiesEndpoint.AcceptedUploadIsUsed | app/api/endpoints/cookies.py:49-54 | an accepted upload of more than 100 bytes is the cookie file the download service then uses for that platform |
| LogsEndpoint.GlobLogs | app/api/endpoints/logs.py:20 | exactly the listed names ending in `.log` |
| LogsEndpoint.EntriesFailAt | app/api/endpoints/logs.py:21-35 | the first name whose `stat` fails makes the listing fail with its error |
| LogsEndpoint.EntriesErrorPersists | app/api/endpoints/logs.py:21-35 | once the listing has failed, later names do not change the error |
| LogsEndpoint.Entries | app/api/endpoints/logs.py:20-27 | one entry per name, in order, with its size, time and `/api/v1/logs/` URL, or the error of the first name whose `stat` fails |
| LogsEndpoint.LogsInfoOutcome | app/api/endpoints/logs.py:14-35 | `total_files` counts the entries; a missing directory gives an empty list |
| LogsEndpoint.GetLogsInfo | app/api/endpoints/logs.py:14-35 | the loop's answer is the logs outcome |
| LogsEndpoint.InfoListsEveryLog | app/api/endpoints/logs.py:19-33 | when every `.log` name can be stat'ed, the answer succeeds, lists only `.log` names of the listing with their URLs, and `total_files` is the number of `.log` names |
| LogsEndpoint.GetLogFile | app/api/endpoints/logs.py:37-65 | a name not ending in `.log` gives 400 before the existence check; a missing file gives 404 |
| LogsEndpoint.GetLogFileDefault | app/api/endpoints/logs.py:38-61 | a request that does not name `lines` asks for 100, and answers the last 100 lines of a longer file or the whole of a shorter one |
| LogsEndpoint.TailOfPositiveRequest | app/api/endpoints/logs.py:53 | for a positive request, exactly the last `lines` lines of a longer file, or the whole of a shorter one |
| LogsEndpoint.PySuffix | app/api/endpoints/logs.py:53 | the slice `[-k:]` is always a suffix of the lines |
| LogsEndpoint.LastLines | app/api/endpoints/logs.py:53 | the lines returned are always a suffix of the file's lines |
| LogsEndpoint.TailOfOtherRequests | app/api/endpoints/logs.py:53 | a request for 0 lines answers the whole file; a negative one drops that many lines from the start |
| LogsEndpoint.ReplyIsTailOfFile | app/api/endpoints/logs.py:52-61 | the reply counts the file's lines and the lines returned, echoes the request, and its content is a tail of the file's text |
| LogsEndpoint.ConcatSplit | app/api/endpoints/logs.py:60 | joining the lines is joining a prefix and the rest |
| LegacyMain.LegacyFormat | main.py:90 | the format chain begins with the quality as the height, verbatim |
| LegacyMain.FormatEmbedsQuality | main.py:90 | the chain contains `height=<quality>]`, `p` included |
| LegacyMain.LegacyOptions | main.py:93-110 | flat extraction exactly for non-single jobs, output `<id>_<title>.<ext>` in the downloads directory, and the quality's chain |
| LegacyMain.LegacyCompleted | main.py:139-150 | the per-file update sets exactly the status, message, download URL, file name and video information |
| LegacyMain.EntryCount | main.py:119 | no or falsy entries count 0, and a list counts its items; an integer, float or boolean either raises or counts 0 |
| LegacyMain.WorkerOutcome | main.py:82-156 | only the job's record changes, and an unknown id changes nothing |
| LegacyMain.LegacyStatusView | main.py:189-195 | an unknown id gives 404; an answer holds only schema fields, with their stored values |
| LegacyMain.LegacyFileDecision | main.py:197-220 | an unknown id gives 404, and a file is served only for a completed job |
| LegacyMain.LegacyApp.constructor | main.py:24 | the table starts empty |
| LegacyMain.LegacyApp.InitiateDownload | main.py:158-187 | the initial record is stored under the new id without any URL check, and the answer is `initiated` |
| LegacyMain.LegacyApp.DownloadVideoAsWritten | main.py:82-156 | the table becomes the worker's outcome with the file count as written |
| LegacyMain.LegacyApp.DownloadVideo | main.py:82-156 | the table becomes the worker's outcome with the file count corrected |
| LegacyMain.LegacyApp.Run | main.py:84-156 | the processing mark, then the failure or the steps after a successful call |
| LegacyMain.LegacyApp.Worker | main.py:84-156 | the table becomes the worker's outcome for the engine's answer on the legacy options and the matching files |
| LegacyMain.LegacyApp.Settle | main.py:119-150 | only the job's record changes, to the outcome after a successful engine call |
| LegacyMain.LegacyApp.RecordFiles | main.py:119-150 | only the job's record changes, to the counts and the per-file updates |
| LegacyMain.LegacyApp.UpdatePerFile | main.py:129-150 | the loop applies one completed update per matching file, in order |
| LegacyMain.LegacyApp.GetDownloadStatus | main.py:189-195 | the answer is the legacy view of the stored record |
| LegacyMain.LegacyApp.DownloadFile | main.py:197-220 | the answer is the legacy decision for the stored record |
| LegacyMain.InitiatedIsReadable | main.py:164-195 | a new record is `initiated` with no URL, file or counts, and the status lookup answers it |
| LegacyMain.EngineFailureIsRecorded | main.py:152-156 | an engine error leaves the record `failed` with "Download failed: " and the error, every other field kept |
| LegacyMain.SingleSuccessIsCompleted | main.py:129-150 | a single download with files ends `completed`, with `/download/<id>`, the last file's name, and the submitted URL in its information |
| LegacyMain.WorkerSettles | main.py:84-156 | the worker never leaves a known job `processing` |
| LegacyMain.LastFileDecides | main.py:129-150 | after several files, the record is the last file's update over the record before |
| LegacyMain.FileUpdatesSnoc | main.py:129-150 | one more file adds that file's update over the record |
| LegacyMain.CompletedFields | main.py:139-150 | after a file's update the record is `completed`, with `/download/<id>`, that file's name and the submitted URL |
| LegacyMain.NonSingleFailsAsWritten | main.py:119-156 | as written, a completed playlist or album download whose entries can be iterated always ends `failed` |
| LegacyMain.CorrectedCountsFiles | main.py:119-122 | with the count corrected, such a download ends `completed`, with the number of entries and the number of matching files |
| LegacyMain.PlaylistCounterexample | main.py:119-122 | a two-entry playlist with both files present: as written it ends `failed`; corrected it ends `completed` with `total_files` 2 |
| LegacyMain.FileChecksInOrder | main.py:200-220 | an unfinished job gives 400; a completed one is served exactly when some file matches `<id>_`, and the first match in listing order is served |

## Left out

- The yt-dlp library is a function parameter (`engine`). Its downloads, and the files it leaves behind, are given as the directory listing after the call.
- FastAPI, pydantic and Starlette plumbing is not modelled: routing, background tasks, `HttpUrl` parsing, the file response, static files, `app/main.py`, the health and cleanup routers, and the scheduler.
  - Each sweep and each request is one sequential call.
  - Races between the worker and the sweepers are not modelled.
- Clocks, `uuid4`, `strftime` and `fromisoformat` are not modelled. The instant, task id and time stamp are parameters. A stored timestamp is already an integer instant, and any other text is unparseable.
- `FileManager` (app/core/storage.py:71-103) is not modelled. The downloads directory is a set or map of names.
- `CleanupService.get_cleanup_stats` is not modelled. It only counts the files and records of a listing and echoes configuration.
- Logging, and the MB figures in log lines, are not modelled. No behaviour depends on them.
- `_get_browser_cookie_options` and app/utils/browser.py are not modelled. Their result is a parameter whose shape only is constrained (empty, or a browser and user agent).
- The per-strategy user agents, header sets and extractor arguments are opaque values. Only the keys are kept. The unused `_get_*_full`, `_optimized` and `_simple_options` helpers are left out.
- `Validation.IsValidUrl` does not model Python's `\S` (non-whitespace) in full. It is approximated by ASCII whitespace, and the ASCII letters and digits are the only host characters.
- `Common.Lower` folds ASCII letters only, and `Common.Strip` removes ASCII whitespace only. Python's `str.lower` and `str.strip` also handle other Unicode letters and spaces.
- `Common.PyInt` covers finite floats only: infinity and NaN are not values of the model. Text is read as an optional sign and ASCII digits: no underscores and no Unicode digits.
- `StatusEndpoint.StatusView` answers 500 when even the fallback does not validate. In the source, that second validation error escapes from the route.
- `DownloadEndpoint.DecideFile` takes a file name that is ISO timestamp text to name no file present, so such a job is expired, never served. The model does not keep the text of a timestamp. No record the service writes has such a file name.
- `LegacyMain.EntryCount` does not count exactly what iterating some values yields. It counts a string as its characters, a dictionary as its keys and the video information as four items. An opaque value is treated as not iterable. ISO timestamp text would yield its characters, but the model does not know them, so such entries are not counted and end in the stand-in error `timestamp entries are not counted`.
- `CookiesEndpoint.UploadCookies` takes the cookie-file validator as a parameter. `_is_valid_cookie_file` is not defined in the sources.
- `LogsEndpoint.GetLogFile` does not model the text encoding. A log file is given as its list of lines, and a decoding error is one of the read failures named by a parameter.
- `LogsEndpoint.Entries` gives the modification instant as the integer time, not as ISO text.
- `DownloadEndpoint.InitiationMessage` writes the quality by its value (`720p`), as Python before 3.11 formats a `str` enum in an f-string. From Python 3.11 on, `f"{request.quality}"` gives `VideoQuality.HIGH`. The sources do not pin the Python version.
- `Storage.DownloadStorage.GetAllStatuses` does not model aliasing of the records. The copy is shallow, so a later in-place update of a task's record shows through the returned dictionary. The model treats records as values.
- `StatusEndpoint.StatusView` passes stored values to the schema as they are, where pydantic v1 would coerce them in the answer. Numeric text, a float or a boolean in `total_files` or `completed_files` would be answered as an integer (the duration is already converted). An integer, float or boolean in a `str` field (`title`, `url`, `format`, `thumbnail`, `message`, ...) would be answered as its text. Bytes are not values of the model.
- `LegacyMain.LegacyStatusView` passes stored values through in the same way. pydantic v1 would answer numeric text, a float or a boolean in `total_files` or `completed_files` as an integer, and a number or boolean in a `str` field as its text.
- `CookiesEndpoint.UploadCookies` treats a failed write as if it never opened the file, so the directory is unchanged. `write_bytes` opens the destination with truncation first, so a write that fails part-way (a full disk, an I/O error) leaves an empty or partial file in place of the previous one before the 500 answer.
- The directory names `downloads/`, `cookies/` and `logs`, the renderings `<timestamp>` of an instant and `<float>` of a float, and the detail of the 500 answer for a fallback that does not validate are stand-ins. So are the 500 details `Error accessing logs: cannot stat <name>` and `Error reading log file: <name>` of the log endpoints, where the source appends Python's `str(e)`, and `LegacyMain.GeneratorLenMessage`, which is Python's text before 3.13 (from 3.13 `Path.glob` returns a `map`, and the TypeError names `'map'`). The sources use absolute paths under the project's base directory (app/core/config.py:23-38), and Python's own renderings.
- The scripts under scripts/, the test scripts and the Facebook demo are not modelled.

## Findings

| source | as written | input that shows it | evidently intended | confidence | as-written member | corrected member |
|---|---|---|---|---|---|---|
| main.py:120 | `len(DOWNLOADS_DIR.glob(...))` takes the length of a generator. This raises TypeError, so every playlist or album download that the engine completes is recorded `failed` | a `playlist` job whose info has `entries` = two items, with files `t_a.mp4` and `t_b.mp4` present | `completed_files` is the number of matching files, and the job completes | not executed | LegacyMain.NonSingleFailsAsWritten | LegacyMain.CorrectedCountsFiles |
| app/api/endpoints/cookies.py:61 | calls `DownloadService._is_valid_cookie_file`, which DownloadService does not define. This raises AttributeError, so every written upload ends in 500 and the file stays | platform `youtube` with any content whose write succeeds (app/main.py:30-34 does not mount the cookies router, so the route is unreachable as shipped) | the file is validated: an invalid one is removed with 400, a valid one is accepted | not executed | CookiesEndpoint.UploadCookiesAsWritten | CookiesEndpoint.AcceptedUpload |

