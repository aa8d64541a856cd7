/**
 * The in-memory job tracker of ytdlp-api-example/main.py: the dictionary
 * `download_status`, the progress hook the download library calls, the background
 * task `download_video`, and the request handlers that read or delete records.
 *
 * Every handler and the background task is an `async def` that never awaits, so each
 * runs to completion on the event loop without interleaving; each is modelled as one
 * step over the store.
 */
module MainTracker {
  import opened Wrappers
  import opened PyLib
  import opened Records

  /* ---------------------------------------------------------------- auth */

  /** `verify_api_key`: 401 exactly when the bearer credential differs from the key. */
  function VerifyApiKey(credential: string, apiKey: string): (r: Response<string>)
    ensures r.HttpError? <==> credential != apiKey
    ensures r.HttpError? ==> r.code == 401 && r.detail == "Invalid API key"
    ensures r.Reply? ==> r.body == apiKey
  {
    if credential != apiKey then HttpError(401, "Invalid API key") else Reply(credential)
  }

  /**
   * With `API_KEY` unset, exactly the credential "your-secret-api-key" is accepted; with
   * it set, exactly its value.
   */
  lemma KeyFromEnvironment(credential: string, env: Option<string>)
    ensures VerifyApiKey(credential, ApiKey(None)).Reply? <==> credential == DEFAULT_API_KEY
    ensures env.Some? ==> (VerifyApiKey(credential, ApiKey(env)).Reply? <==> credential == env.value)
  {
  }

  /* ---------------------------------------------------- format selection */

  /** The table `format_map` of `start_download`. */
  const FORMAT_MAP: map<string, string> := map[
    "mp4" := "best[ext=mp4]/best",
    "mp3" := "bestaudio[ext=m4a]/bestaudio",
    "best" := "best",
    "720p" := "best[height<=720]",
    "480p" := "best[height<=480]"]

  /** `format_map.get(request.format, "best")`. */
  function FormatSelector(format: string): (sel: string)
    ensures sel in FORMAT_MAP.Values
    ensures format in FORMAT_MAP ==> sel == FORMAT_MAP[format]
    ensures format !in FORMAT_MAP ==> sel == "best"
  {
    assert FORMAT_MAP["best"] == "best";
    if format in FORMAT_MAP then FORMAT_MAP[format] else "best"
  }

  ghost predicate IsYouTubeUrl(url: string) {
    Occurs(url, "youtube.com") || Occurs(url, "youtu.be")
  }

  /**
   * The options `download_video` hands to the download library: the requested selector,
   * overridden by the platform checks on the URL (YouTube first, then Instagram).
   */
  function EngineOptions(jobId: string, url: string, selector: string): (o: YdlOptions)
    ensures o.outtmpl == OutputTemplate(jobId)
    ensures IsYouTubeUrl(url) ==> o.format == "best[height<=720]" && o.mergeOutputFormat == Some("mp4")
    ensures !IsYouTubeUrl(url) && Occurs(url, "instagram.com") ==> o.format == "best" && o.mergeOutputFormat == None
    ensures !IsYouTubeUrl(url) && !Occurs(url, "instagram.com") ==> o.format == selector && o.mergeOutputFormat == None
  {
    var base := YdlOptions(selector, None, OutputTemplate(jobId));
    if Contains(url, "youtube.com") || Contains(url, "youtu.be") then
      base.(format := "best[height<=720]", mergeOutputFormat := Some("mp4"))
    else if Contains(url, "instagram.com") then
      base.(format := "best")
    else
      base
  }

  /* ---------------------------------------------------------- submission */

  datatype DownloadRequest = DownloadRequest(url: string, format: string, quality: string)
  datatype DownloadResponse = DownloadResponse(jobId: string, status: string, message: string)

  /** The background task `start_download` schedules. */
  datatype Task = DownloadVideoTask(jobId: string, url: string, formatSelector: string)
  datatype Submission = Submission(response: DownloadResponse, task: Task)

  /**
   * `start_download` with `freshId` standing for `str(uuid.uuid4())`. It takes no store:
   * it writes no record, and answers "queued" before any record exists.
   */
  function StartDownload(request: DownloadRequest, freshId: string): (r: Submission)
    ensures r.response.jobId == freshId && r.task.jobId == freshId
    ensures r.response.status == "queued"
    ensures r.task.url == request.url
    ensures r.response.message == "Download started"
    ensures r.task.formatSelector == FormatSelector(request.format)
    ensures r.task.formatSelector in FORMAT_MAP.Values
    ensures request.format !in FORMAT_MAP ==> r.task.formatSelector == "best"
  {
    Submission(DownloadResponse(freshId, "queued", "Download started"),
               DownloadVideoTask(freshId, request.url, FormatSelector(request.format)))
  }

  /* ------------------------------------------------------------- records */

  const STATUSES := {"starting", "downloading", "completed", "failed"}

  /** What every record the code writes satisfies: a known string status, a string file path. */
  predicate RecordOk(r: Record) {
    && Status in r && r[Status].Str? && r[Status].s in STATUSES
    && (FilePath in r ==> r[FilePath].Str?)
  }

  predicate WellFormed(store: Store) {
    forall k :: k in store ==> RecordOk(store[k])
  }

  /** The record `download_video` creates first. */
  function StartRecord(url: string, selector: string): Record {
    map[Status := Str("starting"), Progress := Int(0), Url := Str(url), Format := Str(selector)]
  }

  /** The record an exception leaves behind, replacing whatever was there. */
  function FailedRecord(message: string): (r: Record)
    ensures RecordOk(r)
  {
    map[Status := Str("failed"), Error := Str(message), Progress := Int(0)]
  }

  /* --------------------------------------------------------- progress hook */

  /** `d.get('info_dict', {}).get('id', 'unknown')`: the VIDEO's id, not the job id. */
  function HookKey(d: ProgressEvent): string {
    d.infoId.GetOr("unknown")
  }

  /** `d.get('_percent_str', '0%').replace('%', '')`, the text handed to `float`. */
  function PercentText(d: ProgressEvent): string {
    Without(d.percentStr.GetOr("0%"), '%')
  }

  function DownloadingUpdate(d: ProgressEvent, percent: real): Record {
    map[Status := Str("downloading"), Progress := Float(percent),
        Speed := Str(d.speedStr.GetOr("")), Eta := Str(d.etaStr.GetOr(""))]
  }

  function FinishedUpdate(d: ProgressEvent): Record {
    map[Status := Str("completed"), Progress := Int(100), FilePath := Str(d.filename)]
  }

  /** The fields the hook may write. */
  const HOOK_FIELDS := {Status, Progress, Speed, Eta, FilePath}

  /**
   * `after` came from `before` by hook merges: no field lost, every field the hook does
   * not write kept, and the status either kept or set to downloading or completed.
   */
  ghost predicate Retains(before: Record, after: Record) {
    && before.Keys <= after.Keys
    && (forall f :: f in before && f !in HOOK_FIELDS ==> after[f] == before[f])
    && (Status in before ==>
          after[Status] == before[Status] || after[Status] == Str("downloading") || after[Status] == Str("completed"))
  }

  lemma RetainsTransitive(a: Record, b: Record, c: Record)
    requires Retains(a, b) && Retains(b, c)
    ensures Retains(a, c)
  {
  }

  /**
   * `progress_hook(d)` on the store. A 'downloading' event whose percent parses merges
   * status, progress, speed and eta into the record of `HookKey(d)`; a 'finished' event
   * merges status completed, progress 100 and the file path; nothing else changes the
   * store, and neither does any event for a key that has no record.
   */
  function HookEffect(store: Store, d: ProgressEvent, parse: FloatParser): (s: Store)
    ensures s.Keys == store.Keys
    ensures forall k :: k in store && k != HookKey(d) ==> s[k] == store[k]
    ensures HookKey(d) in store ==> Retains(store[HookKey(d)], s[HookKey(d)])
    ensures s != store ==>
              HookKey(d) in store && (d.status == "finished" || (d.status == "downloading" && parse(PercentText(d)).Success?))
    ensures WellFormed(store) ==> WellFormed(s)
  {
    var key := HookKey(d);
    match HookUpdate(d, parse)
    case Some(update) => if key in store then store[key := store[key] + update] else store
    case None => store
  }

  /** The fields the hook merges for an event, or None when it writes nothing. */
  function HookUpdate(d: ProgressEvent, parse: FloatParser): (u: Option<Record>)
    ensures u.Some? <==> d.status == "finished" || (d.status == "downloading" && parse(PercentText(d)).Success?)
    ensures u.Some? ==> && u.value.Keys <= HOOK_FIELDS && Status in u.value
                        && (u.value[Status] == Str("downloading") || u.value[Status] == Str("completed"))
                        && (FilePath in u.value ==> u.value[FilePath].Str?)
  {
    if d.status == "downloading" then
      match parse(PercentText(d))
      case Success(percent) => Some(DownloadingUpdate(d, percent))
      case Failure(_) => None
    else if d.status == "finished" then
      Some(FinishedUpdate(d))
    else
      None
  }

  /**
   * What the hook merges into the record its event names: status downloading, the parsed
   * percent, speed and eta for a parseable downloading event; status completed, 100 and
   * the file name for a finished event.
   */
  lemma HookMerges(store: Store, d: ProgressEvent, parse: FloatParser)
    requires HookKey(d) in store
    ensures d.status == "downloading" && parse(PercentText(d)).Success? ==>
              HookEffect(store, d, parse)[HookKey(d)] == store[HookKey(d)] + DownloadingUpdate(d, parse(PercentText(d)).value)
    ensures d.status == "finished" ==>
              HookEffect(store, d, parse)[HookKey(d)] == store[HookKey(d)] + FinishedUpdate(d)
  {
  }

  /** The hook called once per event, in order, as the download library does. */
  function ReplayHooks(store: Store, events: seq<ProgressEvent>, parse: FloatParser): (s: Store)
    ensures s.Keys == store.Keys
    ensures WellFormed(store) ==> WellFormed(s)
    decreases |events|
  {
    if events == [] then store else ReplayHooks(HookEffect(store, events[0], parse), events[1..], parse)
  }

  /** No event of `events` is routed to the record of `key`. */
  ghost predicate Untargeted(events: seq<ProgressEvent>, key: string) {
    forall i :: 0 <= i < |events| ==> HookKey(events[i]) != key
  }

  lemma {:induction false} ReplayRetains(store: Store, events: seq<ProgressEvent>, parse: FloatParser, key: string)
    requires key in store
    ensures Retains(store[key], ReplayHooks(store, events, parse)[key])
    decreases |events|
  {
    if events != [] {
      var next := HookEffect(store, events[0], parse);
      ReplayRetains(next, events[1..], parse, key);
      RetainsTransitive(store[key], next[key], ReplayHooks(store, events, parse)[key]);
    }
  }

  lemma {:induction false} ReplayUntargeted(store: Store, events: seq<ProgressEvent>, parse: FloatParser, key: string)
    requires key in store && Untargeted(events, key)
    ensures ReplayHooks(store, events, parse)[key] == store[key]
    decreases |events|
  {
    if events != [] {
      assert HookKey(events[0]) != key;
      var next := HookEffect(store, events[0], parse);
      assert Untargeted(events[1..], key) by {
        forall i | 0 <= i < |events[1..]| ensures HookKey(events[1..][i]) != key {
          assert events[1..][i] == events[i + 1];
        }
      }
      ReplayUntargeted(next, events[1..], parse, key);
    }
  }

  /** A record reaches 'completed' through the hooks only by a 'finished' event routed to it. */
  lemma {:induction false} ReplayCompletedNeedsFinished(store: Store, events: seq<ProgressEvent>, parse: FloatParser, key: string)
    requires key in store && Status in store[key] && store[key][Status] != Str("completed")
    requires FieldIs(ReplayHooks(store, events, parse)[key], Status, "completed")
    ensures exists i :: 0 <= i < |events| && events[i].status == "finished" && HookKey(events[i]) == key
    decreases |events|
  {
    if events == [] {
    } else {
      var next := HookEffect(store, events[0], parse);
      if events[0].status == "finished" && HookKey(events[0]) == key {
        assert events[0].status == "finished";
      } else {
        assert next[key][Status] != Str("completed");
        ReplayCompletedNeedsFinished(next, events[1..], parse, key);
        var i :| 0 <= i < |events[1..]| && events[1..][i].status == "finished" && HookKey(events[1..][i]) == key;
        assert events[i + 1] == events[1..][i];
      }
    }
  }

  /* ------------------------------------------------------ background task */

  /**
   * The fields `extract_info` returned: None when the info dict lacks the key, and
   * `Some(PyNone)` when the key is present with the value None (a live stream's duration).
   */
  datatype VideoInfo = VideoInfo(id: Option<Value>, title: Option<Value>, duration: Option<Value>, uploader: Option<Value>)

  /** `extract_info` returns an info dict, returns None (errors ignored), or raises. */
  datatype InfoOutcome = InfoReturned(info: VideoInfo) | InfoNone | InfoRaised(message: string)

  /**
   * What the download library does with one URL and set of options: the metadata
   * probe's outcome, the progress events `download` delivers to the hook, and how
   * `download` ends.
   */
  datatype EngineRun = EngineRun(info: InfoOutcome, events: seq<ProgressEvent>, download: Outcome)

  type Engine = (YdlOptions, string) -> EngineRun

  /** `str(e)` for the AttributeError of `info.get` when `extract_info` returned None. */
  const NONE_GET_MESSAGE := "'NoneType' object has no attribute 'get'"

  /** The metadata merged into the record after the probe, with the source's defaults. */
  function Metadata(info: VideoInfo, jobId: string): Record {
    map[VideoId := info.id.GetOr(Str(jobId)),
        Title := info.title.GetOr(Str("Unknown")),
        Duration := info.duration.GetOr(Int(0)),
        Uploader := info.uploader.GetOr(Str(""))]
  }

  /** The message of the exception `download_video` catches, if the run raises one. */
  function RaisedMessage(run: EngineRun): Option<string> {
    match run.info
    case InfoRaised(m) => Some(m)
    case InfoNone => Some(NONE_GET_MESSAGE)
    case InfoReturned(_) => if run.download.Raised? then Some(run.download.message) else None
  }

  function RunOf(engine: Engine, jobId: string, url: string, selector: string): EngineRun {
    engine(EngineOptions(jobId, url, selector), url)
  }

  /**
   * The record `download_video` has built just before the download starts: the record
   * it creates, with the status set to downloading and the probe's metadata merged in.
   */
  function DescribedRecord(url: string, selector: string, info: VideoInfo, jobId: string): (r: Record)
    ensures RecordOk(r) && FieldIs(r, Status, "downloading")
    ensures r.Keys == {Status, Progress, Url, Format, VideoId, Title, Duration, Uploader}
    ensures FieldIs(r, Url, url) && FieldIs(r, Format, selector) && r[Progress] == Int(0)
    ensures r[VideoId] == info.id.GetOr(Str(jobId)) && r[Title] == info.title.GetOr(Str("Unknown"))
    ensures r[Duration] == info.duration.GetOr(Int(0)) && r[Uploader] == info.uploader.GetOr(Str(""))
  {
    StartRecord(url, selector)[Status := Str("downloading")] + Metadata(info, jobId)
  }

  /**
   * `download_video(job_id, url, format_selector)` on the store, for the run the library
   * makes of the options: create the record, mark it downloading, merge the metadata,
   * let the hook see every event, and on any exception replace the record with the
   * failure record. Writes that an exception later overwrites are not repeated here.
   */
  function DownloadVideoRun(store: Store, jobId: string, url: string, selector: string,
                            run: EngineRun, parse: FloatParser): (s: Store)
    ensures s.Keys == store.Keys + {jobId}
    ensures WellFormed(store) ==> WellFormed(s)
  {
    match run.info
    case InfoRaised(m) =>
      PutRecord(store, jobId, FailedRecord(m));
      store[jobId := FailedRecord(m)]
    case InfoNone =>
      PutRecord(store, jobId, FailedRecord(NONE_GET_MESSAGE));
      store[jobId := FailedRecord(NONE_GET_MESSAGE)]
    case InfoReturned(info) =>
      var described := DescribedRecord(url, selector, info, jobId);
      PutRecord(store, jobId, described);
      var hooked := ReplayHooks(store[jobId := described], run.events, parse);
      match run.download
      case Returned => hooked
      case Raised(m) =>
        PutRecord(hooked, jobId, FailedRecord(m));
        hooked[jobId := FailedRecord(m)]
  }

  /** Storing a well-formed record adds its id and keeps the store well-formed. */
  lemma PutRecord(store: Store, jobId: string, r: Record)
    requires RecordOk(r)
    ensures store[jobId := r].Keys == store.Keys + {jobId}
    ensures WellFormed(store) ==> WellFormed(store[jobId := r])
  {
  }

  /** `download_video` with the run the library makes of the options it is given. */
  function DownloadVideoEffect(store: Store, jobId: string, url: string, selector: string,
                               engine: Engine, parse: FloatParser): (s: Store)
    ensures s.Keys == store.Keys + {jobId}
    ensures WellFormed(store) ==> WellFormed(s)
  {
    DownloadVideoRun(store, jobId, url, selector, RunOf(engine, jobId, url, selector), parse)
  }

  /**
   * Any exception of the run replaces the whole record with exactly the failure record:
   * url, format and metadata are gone.
   */
  lemma DownloadVideoFailed(store: Store, jobId: string, url: string, selector: string,
                            run: EngineRun, parse: FloatParser)
    requires RaisedMessage(run).Some?
    ensures DownloadVideoRun(store, jobId, url, selector, run, parse)[jobId] == FailedRecord(RaisedMessage(run).value)
  {
  }

  /**
   * A run that raises nothing keeps every request and metadata field of the record, and
   * leaves it downloading or completed.
   */
  lemma DownloadVideoSucceeded(store: Store, jobId: string, url: string, selector: string,
                               run: EngineRun, parse: FloatParser)
    requires RaisedMessage(run).None?
    ensures var s := DownloadVideoRun(store, jobId, url, selector, run, parse);
            && Retains(DescribedRecord(url, selector, run.info.info, jobId), s[jobId])
            && FieldIs(s[jobId], Url, url) && FieldIs(s[jobId], Format, selector)
            && (FieldIs(s[jobId], Status, "downloading") || FieldIs(s[jobId], Status, "completed"))
  {
    var r := DescribedRecord(url, selector, run.info.info, jobId);
    var described := store[jobId := r];
    var s := ReplayHooks(described, run.events, parse);
    assert DownloadVideoRun(store, jobId, url, selector, run, parse) == s;
    ReplayRetains(described, run.events, parse, jobId);
    RetainsRequest(r, s[jobId], url, selector);
  }

  /** A record the hook only retained still holds the request and a live status. */
  lemma RetainsRequest(before: Record, after: Record, url: string, selector: string)
    requires Retains(before, after)
    requires FieldIs(before, Url, url) && FieldIs(before, Format, selector) && FieldIs(before, Status, "downloading")
    ensures FieldIs(after, Url, url) && FieldIs(after, Format, selector)
    ensures FieldIs(after, Status, "downloading") || FieldIs(after, Status, "completed")
  {
    assert Url !in HOOK_FIELDS && Format !in HOOK_FIELDS;
  }

  /**
   * When no event is routed to the job (the usual case, since the hook looks records up
   * by video id), a run that raises nothing leaves exactly the record built before the
   * download: the job never becomes completed.
   */
  lemma DownloadVideoUntargeted(store: Store, jobId: string, url: string, selector: string,
                                run: EngineRun, parse: FloatParser)
    requires RaisedMessage(run).None? && Untargeted(run.events, jobId)
    ensures DownloadVideoRun(store, jobId, url, selector, run, parse)[jobId]
            == DescribedRecord(url, selector, run.info.info, jobId)
  {
    var described := store[jobId := DescribedRecord(url, selector, run.info.info, jobId)];
    ReplayUntargeted(described, run.events, parse, jobId);
  }

  /** A completed job was completed by a 'finished' event whose video id equals the job id. */
  lemma DownloadVideoCompletedNeedsFinished(store: Store, jobId: string, url: string, selector: string,
                                            run: EngineRun, parse: FloatParser)
    requires FieldIs(DownloadVideoRun(store, jobId, url, selector, run, parse)[jobId], Status, "completed")
    ensures exists i :: 0 <= i < |run.events| && run.events[i].status == "finished" && HookKey(run.events[i]) == jobId
  {
    if RaisedMessage(run).Some? {
      DownloadVideoFailed(store, jobId, url, selector, run, parse);
      assert false;
    }
    var r := DescribedRecord(url, selector, run.info.info, jobId);
    var described := store[jobId := r];
    assert DownloadVideoRun(store, jobId, url, selector, run, parse) == ReplayHooks(described, run.events, parse);
    assert described[jobId][Status] == Str("downloading");
    ReplayCompletedNeedsFinished(described, run.events, parse, jobId);
  }

  /**
   * Other jobs: a run whose probe fails leaves them all alone; otherwise a job's record
   * changes only if some event's video id names it.
   */
  lemma DownloadVideoOtherJobs(store: Store, jobId: string, url: string, selector: string,
                               run: EngineRun, parse: FloatParser, other: string)
    requires other in store && other != jobId
    requires !run.info.InfoReturned? || Untargeted(run.events, other)
    ensures DownloadVideoRun(store, jobId, url, selector, run, parse)[other] == store[other]
  {
    if run.info.InfoReturned? {
      var described := store[jobId := DescribedRecord(url, selector, run.info.info, jobId)];
      ReplayUntargeted(described, run.events, parse, other);
    }
  }

  /* ------------------------------------------------------ read handlers */

  /** `get_download_status`: 404 for an unknown id, else the stored record as it is. */
  function GetDownloadStatus(store: Store, jobId: string): (r: Response<Record>)
    ensures r.HttpError? <==> jobId !in store
    ensures r.HttpError? ==> r.code == 404 && r.detail == "Job not found"
    ensures r.Reply? ==> r.body == store[jobId]
  {
    if jobId !in store then HttpError(404, "Job not found") else Reply(store[jobId])
  }

  /** `job.get('file_path')` when it is a non-empty string, the only truthy path the code stores. */
  function FilePathOf(job: Record): Option<string> {
    if FilePath in job && job[FilePath].Str? && job[FilePath].s != "" then Some(job[FilePath].s) else None
  }

  /**
   * `download_file`, with `files` the paths that exist on disk. Guards in order: unknown
   * id 404, not completed 400, no path or no such file 404; otherwise the file, named by
   * its basename. A record without a status (never written) makes `job['status']` raise: 500.
   */
  function DownloadFile(store: Store, jobId: string, files: set<string>): (r: Response<FileDownload>)
    ensures jobId !in store ==> r == HttpError(404, "Job not found")
    ensures jobId in store && Status in store[jobId] && store[jobId][Status] != Str("completed") ==>
              r == HttpError(400, "Download not completed")
    ensures jobId in store && FieldIs(store[jobId], Status, "completed") &&
            (FilePathOf(store[jobId]).None? || FilePathOf(store[jobId]).value !in files) ==>
              r == HttpError(404, "File not found")
    ensures r.Reply? <==> jobId in store && FieldIs(store[jobId], Status, "completed") &&
                          FilePathOf(store[jobId]).Some? && FilePathOf(store[jobId]).value in files
    ensures r.Reply? ==> r.body.path == FilePathOf(store[jobId]).value && r.body.path in files &&
                         r.body.filename == Basename(r.body.path) &&
                         r.body.mediaType == Some("application/octet-stream")
    ensures r.HttpError? && WellFormed(store) ==> r.code == 404 || r.code == 400
  {
    if jobId !in store then
      HttpError(404, "Job not found")
    else
      var job := store[jobId];
      if Status !in job then
        HttpError(500, "Internal Server Error")
      else if job[Status] != Str("completed") then
        HttpError(400, "Download not completed")
      else
        match FilePathOf(job)
        case None => HttpError(404, "File not found")
        case Some(path) =>
          if path !in files then HttpError(404, "File not found")
          else Reply(FileDownload(path, Basename(path), Some("application/octet-stream")))
  }

  /**
   * With the usual hook routing (no event names the job), a download that raised nothing
   * still cannot be fetched: the record never becomes completed, so `download_file` answers 400.
   */
  lemma UntargetedDownloadNeverServed(store: Store, jobId: string, url: string, selector: string,
                                      run: EngineRun, parse: FloatParser, files: set<string>)
    requires RaisedMessage(run).None? && Untargeted(run.events, jobId)
    ensures DownloadFile(DownloadVideoRun(store, jobId, url, selector, run, parse), jobId, files)
            == HttpError(400, "Download not completed")
  {
    DownloadVideoUntargeted(store, jobId, url, selector, run, parse);
  }

  datatype JobList = JobList(total: int, jobs: Store)
  datatype Health = Health(status: string, downloads: int)

  /** `list_jobs`: the number of job ids and the whole store. */
  function ListJobs(store: Store): (r: JobList)
    ensures r.total == |store.Keys| && r.jobs == store
  {
    JobList(|store|, store)
  }

  /** `health_check`: healthy, with the number of job ids. */
  function HealthCheck(store: Store): (r: Health)
    ensures r.status == "healthy" && r.downloads == |store.Keys|
  {
    Health("healthy", |store|)
  }

  /** Running a task for a new id adds exactly one job to both counts. */
  lemma CountsAfterDownload(store: Store, jobId: string, url: string, selector: string,
                            engine: Engine, parse: FloatParser)
    requires jobId !in store
    ensures var s := DownloadVideoEffect(store, jobId, url, selector, engine, parse);
            ListJobs(s).total == HealthCheck(s).downloads == |store| + 1
  {
    var s := DownloadVideoEffect(store, jobId, url, selector, engine, parse);
    assert s.Keys == store.Keys + {jobId};
    assert |store.Keys + {jobId}| == |store.Keys| + 1;
  }

  /* --------------------------------------------------------- the store */

  /** The file `delete_download` removes: the stored path, if set and present on disk. */
  function FileToRemove(job: Record, files: set<string>): (gone: set<string>)
    ensures gone <= files
    ensures gone != {} <==> FilePathOf(job).Some? && FilePathOf(job).value in files
    ensures forall p :: p in gone ==> FilePathOf(job) == Some(p)
  {
    match FilePathOf(job)
    case Some(path) => if path in files then {path} else {}
    case None => {}
  }

  /** The dictionary `download_status` and the three code paths that change it in place. */
  class Tracker {
    var downloadStatus: Store

    ghost predicate Valid()
      reads this
    {
      WellFormed(downloadStatus)
    }

    constructor ()
      ensures Valid() && downloadStatus == map[]
    {
      downloadStatus := map[];
    }

    /** `progress_hook(d)`. */
    method ProgressHook(d: ProgressEvent, parse: FloatParser)
      requires Valid()
      modifies this
      ensures Valid()
      ensures downloadStatus == HookEffect(old(downloadStatus), d, parse)
    {
      var jobId := HookKey(d);
      if d.status == "downloading" {
        var percent := PercentText(d);
        var parsed := parse(percent);
        if parsed.Success? && jobId in downloadStatus {
          downloadStatus := downloadStatus[jobId := downloadStatus[jobId] + DownloadingUpdate(d, parsed.value)];
        }
      } else if d.status == "finished" {
        if jobId in downloadStatus {
          downloadStatus := downloadStatus[jobId := downloadStatus[jobId] + FinishedUpdate(d)];
        }
      }
    }

    /**
     * The download library delivering `events`, in order, to `progress_hook` while
     * `ydl.download` runs.
     */
    method DeliverEvents(events: seq<ProgressEvent>, parse: FloatParser)
      requires Valid()
      modifies this
      ensures Valid()
      ensures downloadStatus == ReplayHooks(old(downloadStatus), events, parse)
    {
      var i := 0;
      while i < |events|
        invariant 0 <= i <= |events|
        invariant Valid()
        invariant ReplayHooks(old(downloadStatus), events, parse) == ReplayHooks(downloadStatus, events[i..], parse)
      {
        assert events[i..][1..] == events[i + 1..];
        ProgressHook(events[i], parse);
        i := i + 1;
      }
    }

    /** The background task `download_video(job_id, url, format_selector)`. */
    method DownloadVideo(jobId: string, url: string, selector: string, engine: Engine, parse: FloatParser)
      requires Valid()
      modifies this
      ensures Valid()
      ensures downloadStatus == DownloadVideoEffect(old(downloadStatus), jobId, url, selector, engine, parse)
    {
      ghost var before := downloadStatus;
      downloadStatus := downloadStatus[jobId := StartRecord(url, selector)];
      var opts := EngineOptions(jobId, url, selector);
      downloadStatus := downloadStatus[jobId := downloadStatus[jobId][Status := Str("downloading")]];
      ghost var started := StartRecord(url, selector)[Status := Str("downloading")];
      UpdateTwice(before, jobId, StartRecord(url, selector), started);
      var run := engine(opts, url);
      match run.info {
        case InfoRaised(m) =>
          downloadStatus := downloadStatus[jobId := FailedRecord(m)];
          UpdateTwice(before, jobId, started, FailedRecord(m));
          assert downloadStatus == DownloadVideoRun(before, jobId, url, selector, run, parse);
        case InfoNone =>
          downloadStatus := downloadStatus[jobId := FailedRecord(NONE_GET_MESSAGE)];
          UpdateTwice(before, jobId, started, FailedRecord(NONE_GET_MESSAGE));
          assert downloadStatus == DownloadVideoRun(before, jobId, url, selector, run, parse);
        case InfoReturned(info) =>
          downloadStatus := downloadStatus[jobId := downloadStatus[jobId] + Metadata(info, jobId)];
          UpdateTwice(before, jobId, started, DescribedRecord(url, selector, info, jobId));
          DeliverEvents(run.events, parse);
          if run.download.Raised? {
            downloadStatus := downloadStatus[jobId := FailedRecord(run.download.message)];
          }
          assert downloadStatus == DownloadVideoRun(before, jobId, url, selector, run, parse);
      }
      assert run == RunOf(engine, jobId, url, selector);
      assert downloadStatus == DownloadVideoEffect(before, jobId, url, selector, engine, parse);
    }

    /**
     * `delete_download(job_id)` with `files` the paths on disk: 404 and nothing changed for
     * an unknown id; otherwise the stored file (if set and present) is removed and exactly
     * that job id leaves the store.
     */
    method DeleteDownload(jobId: string, files: set<string>) returns (r: Response<string>, remaining: set<string>)
      requires Valid()
      modifies this
      ensures Valid()
      ensures jobId !in old(downloadStatus) ==>
                r == HttpError(404, "Job not found") && downloadStatus == old(downloadStatus) && remaining == files
      ensures jobId in old(downloadStatus) ==>
                && r == Reply("Download deleted")
                && downloadStatus == old(downloadStatus) - {jobId}
                && remaining == files - FileToRemove(old(downloadStatus)[jobId], files)
                && |downloadStatus| == |old(downloadStatus)| - 1
      ensures GetDownloadStatus(downloadStatus, jobId).HttpError?
    {
      if jobId !in downloadStatus {
        return HttpError(404, "Job not found"), files;
      }
      var job := downloadStatus[jobId];
      var path := FilePathOf(job);
      remaining := files;
      if path.Some? && path.value in files {
        remaining := files - {path.value};
      }
      downloadStatus := downloadStatus - {jobId};
      assert downloadStatus.Keys == old(downloadStatus).Keys - {jobId};
      r := Reply("Download deleted");
    }
  }
}
