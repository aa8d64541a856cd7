# yt-dlp download API: the in-memory job tracker

The repository serves yt-dlp downloads over HTTP. It does so in two versions: a larger
one in `ytdlp-api-example/main.py` and a smaller one in `api.py`. Each keeps its jobs in a
process-wide dictionary from job id to a record of string keys. A background task writes
the record, the download library's progress callback updates it, and the request handlers
read it (and, in the larger version, delete it). This project models both trackers in
Dafny and proves what each operation does to the dictionary and what each handler answers.

Files:

- `wrappers.dfy`: the `Option` and `Result` types.
- `pylib.dfy`: the Python string and path operations the code relies on:
  - substring `in`;
  - `str.replace(c, '')`;
  - `os.path.basename`;
  - the first match of `Path.glob(f"{job_id}.*")`.
- `records.dfy`: shared vocabulary:
  - record values, with a `Key` type holding the dictionary keys the code uses;
  - the store, the progress events and the yt-dlp options;
  - HTTP responses;
  - the download directory and the API key default.
- `main_tracker.dfy` (module `MainTracker`): `ytdlp-api-example/main.py`.
  - The dictionary `download_status` is the field of class `Tracker`.
  - `progress_hook`, `download_video` and `delete_download` are its methods. Each is proved
    equal to a function of the old dictionary, and the lemmas state the properties of those
    functions.
  - The format table, the platform override and the read-only handlers are functions.
- `api_tracker.dfy` (module `ApiTracker`): `api.py`.
  - `jobs` is the field of class `Server`.
  - `worker` and its progress lambda are its methods.
  - `start`, `status`, `fetch`, `health` and `check_key` are functions.

The outside world enters as parameters:

- yt-dlp is a function from the options and the URL to a run. A run holds:
  - what `extract_info` produced;
  - the progress events the library reports;
  - whether `download` returned or raised.
- `float()` is a parser from text to a real or an error message.
- The files on disk are a set of paths.
- The directory listing that `glob` walks is a sequence of names.
- `uuid4()` is a fresh id passed in.

Behaviour reproduced as the code is written:

- **Hook routing.** `progress_hook` in main.py looks a record up by the video id of the event,
  not by the job id. When the two differ (the normal case), the hook never writes to the
  job. Such a job never becomes `completed`, and `download_file` answers 400 for it
  (`UntargetedDownloadNeverServed`).
- **No record at submission.** Neither `start_download` nor `start` creates a record. The
  record first appears when the background task runs. The task runs on the event loop
  right after the reply is sent, and never awaits, so the server reads no further request
  before the record exists.
- **Progress of non-downloading events.** The progress lambda of api.py sets `progress` to
  an empty dict on every event that is not `downloading`. It does not leave the record
  unchanged, because the conditional is the value of the keyword argument. A completed job
  therefore reports progress `{}` (`CompletedJobProgressIsEmptyDict`).
- **No output file.** In api.py, a job with no output file fails with the empty error
  message of `StopIteration`.
- **Intermediate states of the worker.** Between marking a job completed (api.py:35) and
  storing its file (api.py:36), the record is completed without a file. `fetch` would
  answer 500 on that state (`FetchBeforeFileIsSet`). The single event loop the server runs
  never schedules a request there, so this describes the state, not a reachable reply.
- **Fields reported as None.** `extract_info` may report a field with the value None
  (a live stream's duration). `info.get` then returns that None, and the record stores it
  (`PyNone`), not the default.
- **Probe returns None.** With `ignoreerrors` set, `extract_info` can return None. The
  following `info.get` then raises `AttributeError`, and its message becomes the job's error.

## Model

| member | source | states |
|---|---|---|
| PyLib.Contains | ytdlp-api-example/main.py:97-102 | Python's substring test: true exactly when the pattern occurs at some position of the text |
| PyLib.Without | ytdlp-api-example/main.py:53 | `replace('%', '')` removes every percent sign and keeps every other character with its multiplicity; text without one is unchanged; a single character is dropped exactly when it is the sign |
| PyLib.WithoutConcat | ytdlp-api-example/main.py:53 | removal works piece by piece, so the surviving characters keep their order |
| PyLib.Basename | ytdlp-api-example/main.py:194 | the file name is the longest slash-free suffix of the path |
| PyLib.FirstGlobMatch | api.py:36 | `next(glob(job_id + ".*"))` finds nothing exactly when no directory entry starts with the job id and a dot; otherwise it gives the directory joined with the first such entry |
| MainTracker.VerifyApiKey | ytdlp-api-example/main.py:40-46 | 401 "Invalid API key" exactly when the credential differs from the key; otherwise the credential is returned |
| MainTracker.KeyFromEnvironment | ytdlp-api-example/main.py:23 | with `API_KEY` unset exactly the credential "your-secret-api-key" passes the check; with it set, exactly its value |
| MainTracker.FormatSelector | ytdlp-api-example/main.py:152-160 | the five table formats get their selectors, any other format gets "best", and the result is always one of the table's selectors |
| MainTracker.EngineOptions | ytdlp-api-example/main.py:84-105 | a YouTube URL forces best[height<=720] merged to mp4, whatever else holds; otherwise an Instagram URL forces "best"; otherwise the requested selector; the output template is always downloads/<job id>.%(ext)s |
| MainTracker.StartDownload | ytdlp-api-example/main.py:143-169 | answers queued, "Download started", with the fresh id, and schedules the task for that id and URL with the selector the format table gives ("best" for unknown formats); it takes no store and so writes no record |
| MainTracker.HookEffect | ytdlp-api-example/main.py:48-71 | the hook changes at most the record named by the event's video id, keeps the set of ids, keeps every field outside the hook's fields, and leaves the status unchanged, downloading or completed; unknown ids, unparseable percents and other statuses change nothing; well-formedness is preserved |
| MainTracker.HookUpdate | ytdlp-api-example/main.py:52-71 | the hook writes exactly for a finished event or a downloading event whose percent parses, and then only the hook's fields, with status downloading or completed and a string file path |
| MainTracker.HookMerges | ytdlp-api-example/main.py:52-71 | a parseable downloading event merges status downloading, the percent, speed and eta (defaults "") into the named record; a finished event merges completed, 100 and the file name |
| MainTracker.ReplayHooks | ytdlp-api-example/main.py:87 | delivering a sequence of events keeps the set of job ids and well-formedness |
| MainTracker.ReplayRetains | ytdlp-api-example/main.py:57-71 | after any sequence of events a record keeps all its fields, keeps every value outside the hook's fields, and has a status that is unchanged, downloading or completed |
| MainTracker.ReplayUntargeted | ytdlp-api-example/main.py:50 | a record that no event's video id names is left exactly as it was |
| MainTracker.ReplayCompletedNeedsFinished | ytdlp-api-example/main.py:65-71 | a record becomes completed through the hook only if some finished event's video id names it |
| MainTracker.DescribedRecord | ytdlp-api-example/main.py:76-119 | the record before the download holds exactly status, progress, url, format and the four metadata fields; it is downloading with progress 0, url and format are the ones requested, and video_id, title, duration and uploader are the probe's values, defaulting to the job id, "Unknown", 0 and "" |
| MainTracker.DownloadVideoRun | ytdlp-api-example/main.py:73-132 | the task adds exactly its job id to the store and preserves well-formedness |
| MainTracker.DownloadVideoEffect | ytdlp-api-example/main.py:84-122 | the same, for the run yt-dlp makes of the options and URL |
| MainTracker.DownloadVideoFailed | ytdlp-api-example/main.py:126-132 | any exception of the probe or of the download, including the None probe, replaces the record with exactly the failure record with that message |
| MainTracker.DownloadVideoSucceeded | ytdlp-api-example/main.py:107-122 | a run that raises nothing keeps every field of the record built before the download, keeps url and format, and ends downloading or completed |
| MainTracker.DownloadVideoUntargeted | ytdlp-api-example/main.py:50-122 | with no event routed to the job, a run that raises nothing leaves exactly the record built before the download |
| MainTracker.DownloadVideoCompletedNeedsFinished | ytdlp-api-example/main.py:50-71 | a job ends completed only if a finished event carried a video id equal to the job id |
| MainTracker.DownloadVideoOtherJobs | ytdlp-api-example/main.py:126-132 | another job's record is untouched when the probe fails, or when no event's video id names it |
| MainTracker.GetDownloadStatus | ytdlp-api-example/main.py:171-177 | 404 "Job not found" exactly for an unknown id; otherwise the stored record unchanged |
| MainTracker.DownloadFile | ytdlp-api-example/main.py:179-199 | guards in order: unknown id 404, status other than completed 400, no path or no such file 404; a reply exactly when the job is completed with an existing path, serving that path under its basename as octet-stream; on well-formed stores only 400 and 404 occur |
| MainTracker.UntargetedDownloadNeverServed | ytdlp-api-example/main.py:187-188 | after a download that raised nothing and whose events name other ids, download_file answers 400 for the job |
| MainTracker.ListJobs | ytdlp-api-example/main.py:219-225 | the total is the number of job ids, and the jobs are the whole store |
| MainTracker.HealthCheck | ytdlp-api-example/main.py:138-140 | healthy, with the number of job ids |
| MainTracker.CountsAfterDownload | ytdlp-api-example/main.py:140 | after the task runs for a new id, both counts are one more than before |
| MainTracker.FileToRemove | ytdlp-api-example/main.py:208-212 | a file is removed exactly when the record holds a non-empty path that exists, and the only file removed is that stored path |
| MainTracker.Tracker.constructor | ytdlp-api-example/main.py:28 | the dictionary starts empty |
| MainTracker.Tracker.ProgressHook | ytdlp-api-example/main.py:48-71 | the in-place hook leaves the dictionary as HookEffect says and keeps it well-formed |
| MainTracker.Tracker.DeliverEvents | ytdlp-api-example/main.py:122 | calling the hook once per event, in order, gives the replay of all events |
| MainTracker.Tracker.DownloadVideo | ytdlp-api-example/main.py:73-132 | the step-by-step task (create, mark downloading, merge metadata, download, overwrite on exception) ends in the state DownloadVideoEffect describes, and keeps the store well-formed |
| MainTracker.Tracker.DeleteDownload | ytdlp-api-example/main.py:201-217 | an unknown id gives 404 and changes nothing; otherwise exactly that id leaves the store, other records are untouched, only the record's existing file is removed, and a later status query answers 404 |
| ApiTracker.CheckKey | api.py:21-23 | 401 "API key hatalı" exactly when the credential differs from the key |
| ApiTracker.FormatSelector | api.py:47 | "best[ext=mp4]/best" exactly for "mp4"; "best" for every other format |
| ApiTracker.FormatRulesCompared | api.py:47 | the two versions choose the same selector except for "mp3", "720p" and "480p" |
| ApiTracker.Start | api.py:44-49 | answers queued with the fresh id and schedules the worker for that id and URL with the selector of the format rule: the mp4 selector exactly when mp4 was requested, "best" otherwise; no record is written |
| ApiTracker.CallbackEffect | api.py:30 | a downloading event whose percent does not parse raises the parser's error; a downloading event otherwise sets progress to the parsed value; any other event sets progress to an empty dict; nothing else in the store changes |
| ApiTracker.DeliverEvents | api.py:30-34 | the callback raises during delivery exactly when some event's percent does not parse, and the error raised is the parser's error for the first such event; the only change is to the job's progress |
| ApiTracker.DeliverStopsAtFirstRaise | api.py:30-34 | when the first failing event is the i-th, the store is the one the events before it produced: it and all later events are never applied |
| ApiTracker.DeliverEndsWithEmptyProgress | api.py:30 | after delivery without a raise, if the last event is not downloading, progress is an empty dict |
| ApiTracker.MarkCompleted | api.py:35 | marking the job completed sets only its status: its other fields and every other job stay as they were |
| ApiTracker.DeliveredJob | api.py:26-34 | after the callbacks, the job's record holds exactly status downloading and progress; other jobs are untouched |
| ApiTracker.FinalRecord | api.py:35-38 | the job's last record is well-formed; it is completed exactly when nothing raised, the download returned and the glob found a file, which it then holds; a completed record is the delivered record with its status set to completed and the file added, nothing else changed; otherwise it is the failure record with the first error raised, in the order callback, download, StopIteration |
| ApiTracker.WorkerRun | api.py:25-38 | the worker adds exactly its job id, leaves other jobs untouched, and preserves well-formedness and the rule that completed jobs have a file |
| ApiTracker.WorkerOutcome | api.py:35-38 | the job ends either completed, holding exactly status, the progress the callbacks left, and the first glob match as its file, or failed, holding only status and the error text: the callback's error if it raised, else the download's, else the empty StopIteration message |
| ApiTracker.WorkerEffect | api.py:25-38 | the same as WorkerRun, for the run yt-dlp makes of the options and URL |
| ApiTracker.WorkerCompletedIff | api.py:32-38 | the job ends completed exactly when no percent failed to parse, the download returned, and some directory entry matches the glob; with no match it ends as the failure record with the empty StopIteration message |
| ApiTracker.CompletedJobProgressIsEmptyDict | api.py:30-35 | a completed job whose last event was not downloading reports progress as an empty dict, not 100 |
| ApiTracker.GetStatus | api.py:51-54 | 404 "Job yok" exactly for an unknown id; otherwise the stored record unchanged |
| ApiTracker.Fetch | api.py:56-61 | 400 "Hazır değil" exactly for an unknown id or a job that is not completed, never 404; a completed job without a string file gives 500; otherwise its file under its basename; on settled stores only 400 occurs |
| ApiTracker.FetchBeforeFileIsSet | api.py:35-36 | on the state between marking completed and storing the file, fetch would answer 500 |
| ApiTracker.GetHealth | api.py:41-42 | ok, with the number of job ids |
| ApiTracker.Server.constructor | api.py:13 | the dictionary starts empty |
| ApiTracker.Server.Callback | api.py:30 | the in-place lambda either raises the parser's error with the store unchanged, or leaves the store as CallbackEffect says; a file for every completed job still holds |
| ApiTracker.Server.Deliver | api.py:33-34 | calling the callback per event until one raises gives the store and the raised message of DeliverEvents |
| ApiTracker.Server.Worker | api.py:25-38 | the step-by-step worker (init, deliver, mark completed, store the glob match, overwrite on exception) ends in the state WorkerEffect describes, and keeps the store well-formed with a file for every completed job |

## Left out

- The `/` endpoint of main.py returns a constant message and touches no state.
- `install_service.py`, `setup_autostart.py` and `start_api.py` install and launch the service. They are operating-system glue and hold no tracker logic.
- yt-dlp itself (format selection, extraction, the file it writes) is an abstract run supplied as a parameter.
- The model assumes two things about yt-dlp. It calls the progress callbacks in the order of the run's events. An exception raised in api.py's callback aborts `download` and reaches `worker`'s `except` with its message unchanged.
- FastAPI routing, bearer-token parsing, pydantic validation and `FileResponse` streaming are left out. Each handler is a function from the store and its arguments to a reply or an HTTP error.
- Logging in main.py is left out: it has no effect on the store.
- Percentages are real numbers, not IEEE doubles. `float()` is an abstract parser, so the accepted spellings are not modelled.
- `os.path.basename` and `Records.OutputTemplate` use `/` as the only separator, the POSIX behaviour. On Windows, `str(DOWNLOAD_DIR / ...)` gives `downloads\<id>...` and `basename` also splits on `\`; this is not modelled.
- `glob` is modelled as "name starts with the job id and a dot", over a listing in the order the file system returns it. Job ids are uuids, so they hold no glob metacharacters.
- MainTracker.DownloadFile: a `file_path` that is not a string counts as missing (404). The code only stores strings there, so this case does not arise.
- ApiTracker.Fetch: the served file is not checked for existence. The code checks neither; a missing file fails only while the response is being sent.
- `os.remove` failing, and a file vanishing between the existence check and the removal, are not modelled.
- Interleavings: the background tasks of both versions never await, so each runs to completion on the event loop, and the server reads no request meanwhile. Each task is modelled as one step. Its intermediate states are stated only as states (MarkCompleted, FetchBeforeFileIsSet); a multi-process deployment sharing no store is not modelled.
- The `quality` field of main.py's request is accepted but unused by the code, and so by the model.
- The value of the `API_KEY` environment variable is a parameter of the key checks. `Records.ApiKey` gives the default when the variable is unset.
