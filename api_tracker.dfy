/**
 * The smaller job tracker of api.py: the dictionary `jobs`, the background task
 * `worker` with its inline progress callback, and the handlers `start`, `status`,
 * `fetch` and `health`.
 *
 * `worker` is an `async def` that never awaits, so it runs to completion on the event
 * loop, and the server reads no new request while it runs; it is modelled as one step.
 * Its intermediate states are still stated (MarkCompleted, FetchBeforeFileIsSet), as
 * what a reader would see if one were scheduled between two of its writes.
 */
module ApiTracker {
  import opened Wrappers
  import opened PyLib
  import opened Records
  import MainTracker

  /* ---------------------------------------------------------------- auth */

  /** `check_key`: rejects with 401 exactly when the credential differs from the key. */
  function CheckKey(credential: string, apiKey: string): (r: Response<()>)
    ensures r.HttpError? <==> credential != apiKey
    ensures r.HttpError? ==> r.code == 401 && r.detail == "API key hatalı"
  {
    if credential != apiKey then HttpError(401, "API key hatalı") else Reply(())
  }

  /* ---------------------------------------------------------- submission */

  /** The format rule of `start`. */
  function FormatSelector(format: string): (fmt: string)
    ensures fmt == "best[ext=mp4]/best" <==> format == "mp4"
    ensures format != "mp4" ==> fmt == "best"
  {
    if format == "mp4" then "best[ext=mp4]/best" else "best"
  }

  /**
   * The two versions choose the same selector for "mp4", "best" and every format outside
   * main.py's table, and different ones for "mp3", "720p" and "480p".
   */
  lemma FormatRulesCompared(format: string)
    ensures FormatSelector(format) == MainTracker.FormatSelector(format)
            <==> format !in {"mp3", "720p", "480p"}
  {
    if format in MainTracker.FORMAT_MAP {
      assert format in {"mp4", "mp3", "best", "720p", "480p"};
    }
  }

  datatype Req = Req(url: string, format: string)
  datatype StartReply = StartReply(jobId: string, status: string)
  datatype Task = WorkerTask(jobId: string, url: string, format: string)
  datatype Submission = Submission(reply: StartReply, task: Task)

  /** `start`, with `freshId` for `str(uuid.uuid4())`: it writes no record. */
  function Start(req: Req, freshId: string): (r: Submission)
    ensures r.reply == StartReply(freshId, "queued")
    ensures r.task.jobId == freshId && r.task.url == req.url
    ensures r.task.format == FormatSelector(req.format)
    ensures r.task.format == "best[ext=mp4]/best" <==> req.format == "mp4"
    ensures req.format != "mp4" ==> r.task.format == "best"
  {
    Submission(StartReply(freshId, "queued"), WorkerTask(freshId, req.url, FormatSelector(req.format)))
  }

  /* ------------------------------------------------------------- records */

  const STATUSES := {"downloading", "completed", "failed"}

  predicate RecordOk(r: Record) {
    && Status in r && r[Status].Str? && r[Status].s in STATUSES
    && (File in r ==> r[File].Str?)
  }

  predicate WellFormed(store: Store) {
    forall k :: k in store ==> RecordOk(store[k])
  }

  /** Every completed job already has its file: what a reader sees once `worker` is done. */
  predicate Settled(store: Store) {
    && WellFormed(store)
    && forall k :: k in store && FieldIs(store[k], Status, "completed") ==> File in store[k]
  }

  /** The record `worker` writes first. */
  function InitRecord(): Record {
    map[Status := Str("downloading"), Progress := Int(0)]
  }

  /** The record an exception leaves behind: no progress field. */
  function FailedRecord(message: string): Record {
    map[Status := Str("failed"), Error := Str(message)]
  }

  /** `str(StopIteration())`: the error of a job whose glob found no file. */
  const STOP_ITERATION_MESSAGE := ""

  /* --------------------------------------------------- progress callback */

  /** `d.get('_percent_str', '0').replace('%', '')`, the text handed to `float`. */
  function PercentText(d: ProgressEvent): string {
    Without(d.percentStr.GetOr("0"), '%')
  }

  /** A 'downloading' event whose percent `float` rejects: the callback raises. */
  ghost predicate Unparsable(d: ProgressEvent, parse: FloatParser) {
    d.status == "downloading" && parse(PercentText(d)).Failure?
  }

  /** `after` differs from `before` at most in the progress field of `jobId`'s record. */
  ghost predicate OnlyProgress(before: Store, after: Store, jobId: string) {
    && jobId in before
    && after.Keys == before.Keys
    && (forall k :: k in before && k != jobId ==> after[k] == before[k])
    && after[jobId].Keys == before[jobId].Keys + {Progress}
    && (forall f :: f in before[jobId] && f != Progress ==> after[jobId][f] == before[jobId][f])
  }

  /**
   * The progress callback `lambda d: jobs[job_id].update(progress=... if ... else {})`.
   * The conditional is the value of the keyword argument, so a 'downloading' event sets
   * progress to the parsed percent (or raises when `float` fails) and every other event
   * sets progress to an empty dict.
   */
  function CallbackEffect(store: Store, jobId: string, d: ProgressEvent, parse: FloatParser): (r: Result<Store, string>)
    requires jobId in store
    ensures r.Failure? <==> Unparsable(d, parse)
    ensures r.Failure? ==> r.error == parse(PercentText(d)).error
    ensures r.Success? ==> OnlyProgress(store, r.value, jobId)
    ensures r.Success? && d.status == "downloading" ==> r.value[jobId][Progress] == Float(parse(PercentText(d)).value)
    ensures d.status != "downloading" ==> r.Success? && r.value[jobId][Progress] == EmptyDict
  {
    var progress :=
      if d.status == "downloading" then
        match parse(PercentText(d))
        case Success(v) => Success(Float(v))
        case Failure(e) => Failure(e)
      else
        Success(EmptyDict);
    match progress
    case Success(v) => Success(store[jobId := store[jobId][Progress := v]])
    case Failure(e) => Failure(e)
  }

  /** The store after the callback has seen `events`, and the message it raised, if any. */
  datatype Delivery = Delivery(store: Store, raised: Option<string>)

  /** The download library calling the callback once per event until one raises. */
  function DeliverEvents(store: Store, jobId: string, events: seq<ProgressEvent>, parse: FloatParser): (h: Delivery)
    requires jobId in store
    ensures h.store.Keys == store.Keys
    ensures h.raised.Some? <==> exists i :: 0 <= i < |events| && Unparsable(events[i], parse)
    ensures h.raised.Some? ==>
              exists i :: && 0 <= i < |events| && Unparsable(events[i], parse)
                          && (forall j :: 0 <= j < i ==> !Unparsable(events[j], parse))
                          && h.raised.value == parse(PercentText(events[i])).error
    ensures h.store == store || OnlyProgress(store, h.store, jobId)
    decreases |events|
  {
    if events == [] then
      Delivery(store, None)
    else
      match CallbackEffect(store, jobId, events[0], parse)
      case Failure(e) => Delivery(store, Some(e))
      case Success(next) =>
        var rest := DeliverEvents(next, jobId, events[1..], parse);
        assert forall i :: 1 <= i < |events| ==> events[i] == events[1..][i - 1];
        rest
  }

  /**
   * When the callback first raises on event `i`, the store is the one the events before
   * `i` produced: event `i` and every later event are never applied.
   */
  lemma {:induction false} DeliverStopsAtFirstRaise(store: Store, jobId: string, events: seq<ProgressEvent>,
                                                    parse: FloatParser, i: nat)
    requires jobId in store
    requires i < |events| && Unparsable(events[i], parse)
    requires forall j :: 0 <= j < i ==> !Unparsable(events[j], parse)
    ensures DeliverEvents(store, jobId, events, parse)
            == Delivery(DeliverEvents(store, jobId, events[..i], parse).store, Some(parse(PercentText(events[i])).error))
    decreases i
  {
    if i == 0 {
      assert events[..0] == [];
    } else {
      assert !Unparsable(events[0], parse);
      var next := CallbackEffect(store, jobId, events[0], parse).value;
      assert events[..i][0] == events[0];
      assert events[..i][1..] == events[1..][..i - 1];
      assert events[1..][i - 1] == events[i];
      assert forall j :: 0 <= j < i - 1 ==> events[1..][j] == events[j + 1];
      DeliverStopsAtFirstRaise(next, jobId, events[1..], parse, i - 1);
    }
  }

  /** After a run that raised nothing and ended on a non-'downloading' event, progress is `{}`. */
  lemma {:induction false} DeliverEndsWithEmptyProgress(store: Store, jobId: string, events: seq<ProgressEvent>, parse: FloatParser)
    requires jobId in store && events != [] && events[|events| - 1].status != "downloading"
    requires DeliverEvents(store, jobId, events, parse).raised.None?
    ensures DeliverEvents(store, jobId, events, parse).store[jobId][Progress] == EmptyDict
    decreases |events|
  {
    var next := CallbackEffect(store, jobId, events[0], parse);
    if |events| > 1 {
      assert events[1..][|events[1..]| - 1] == events[|events| - 1];
      DeliverEndsWithEmptyProgress(next.value, jobId, events[1..], parse);
    }
  }

  /* ------------------------------------------------------ background task */

  /** What the download library does with one URL: the events it reports and how `download` ends. */
  datatype EngineRun = EngineRun(events: seq<ProgressEvent>, download: Outcome)

  type Engine = (YdlOptions, string) -> EngineRun

  /** The options `worker` hands to the library. */
  function WorkerOptions(jobId: string, fmt: string): YdlOptions {
    YdlOptions(fmt, None, OutputTemplate(jobId))
  }

  /** The record after `jobs[job_id]["status"] = "completed"`, before the file is found. */
  function MarkCompleted(store: Store, jobId: string): (s: Store)
    requires jobId in store
    ensures s.Keys == store.Keys && FieldIs(s[jobId], Status, "completed")
    ensures s[jobId].Keys == store[jobId].Keys + {Status}
    ensures forall f :: f in store[jobId] && f != Status ==> s[jobId][f] == store[jobId][f]
    ensures forall k :: k in store && k != jobId ==> s[k] == store[k]
  {
    store[jobId := store[jobId][Status := Str("completed")]]
  }

  /** After the callbacks, the new job's record holds only its status and its progress. */
  lemma DeliveredJob(store: Store, jobId: string, events: seq<ProgressEvent>, parse: FloatParser)
    ensures var d := DeliverEvents(store[jobId := InitRecord()], jobId, events, parse).store;
            && d.Keys == store.Keys + {jobId}
            && d[jobId].Keys == {Status, Progress} && d[jobId][Status] == Str("downloading")
            && (forall k :: k in store && k != jobId ==> d[k] == store[k])
  {
  }

  /**
   * The job's record at the end of `worker`, from its record after the callbacks: the
   * failure record for an exception of the callback or of `download`, else completed
   * with the glob match as its file, or the failure record of StopIteration.
   */
  function FinalRecord(job: Record, raised: Option<string>, download: Outcome, found: Option<string>): (r: Record)
    requires job.Keys == {Status, Progress}
    ensures RecordOk(r)
    ensures FieldIs(r, Status, "completed") ==> File in r
    ensures FieldIs(r, Status, "completed") <==> raised.None? && download == Returned && found.Some?
    ensures FieldIs(r, Status, "completed") ==> r[File] == Str(found.value)
    ensures FieldIs(r, Status, "completed") ==> r == job[Status := Str("completed")][File := Str(found.value)]
    ensures !FieldIs(r, Status, "completed") ==>
              r == FailedRecord(if raised.Some? then raised.value
                                else if download.Raised? then download.message
                                else STOP_ITERATION_MESSAGE)
  {
    match raised
    case Some(e) => FailedRecord(e)
    case None =>
      match download
      case Raised(e) => FailedRecord(e)
      case Returned =>
        match found
        case None => FailedRecord(STOP_ITERATION_MESSAGE)
        case Some(path) => job[Status := Str("completed")][File := Str(path)]
  }

  /**
   * `worker(job_id, url, fmt)` on the store, for the run the library makes and the
   * directory listing after it: create the record, deliver the events, then finish the
   * record as FinalRecord says.
   */
  function WorkerRun(store: Store, jobId: string, run: EngineRun, listing: seq<string>, parse: FloatParser): (s: Store)
    ensures s.Keys == store.Keys + {jobId}
    ensures forall k :: k in store && k != jobId ==> s[k] == store[k]
    ensures WellFormed(store) ==> WellFormed(s)
    ensures Settled(store) ==> Settled(s)
  {
    var delivered := DeliverEvents(store[jobId := InitRecord()], jobId, run.events, parse);
    DeliveredJob(store, jobId, run.events, parse);
    var job := FinalRecord(delivered.store[jobId], delivered.raised, run.download, FirstGlobMatch(DOWNLOAD_DIR, listing, jobId));
    PutKeepsInvariants(store, delivered.store, jobId, job);
    delivered.store[jobId := job]
  }

  /** Storing a well-formed record whose completion carries a file keeps both store invariants. */
  lemma PutKeepsInvariants(store: Store, d: Store, jobId: string, job: Record)
    requires d.Keys == store.Keys + {jobId}
    requires forall k :: k in store && k != jobId ==> d[k] == store[k]
    requires RecordOk(job) && (FieldIs(job, Status, "completed") ==> File in job)
    ensures var s := d[jobId := job];
            && s.Keys == store.Keys + {jobId}
            && (forall k :: k in store && k != jobId ==> s[k] == store[k])
            && (WellFormed(store) ==> WellFormed(s))
            && (Settled(store) ==> Settled(s))
  {
  }

  /**
   * The worker leaves its job either failed, with only a status and an error, or
   * completed, with the first glob match as its file.
   */
  lemma WorkerOutcome(store: Store, jobId: string, run: EngineRun, listing: seq<string>, parse: FloatParser)
    ensures var s := WorkerRun(store, jobId, run, listing, parse);
            && (FieldIs(s[jobId], Status, "completed") || FieldIs(s[jobId], Status, "failed"))
            && (FieldIs(s[jobId], Status, "failed") ==> s[jobId].Keys == {Status, Error})
            && (FieldIs(s[jobId], Status, "failed") ==>
                  var d := DeliverEvents(store[jobId := InitRecord()], jobId, run.events, parse);
                  s[jobId] == FailedRecord(if d.raised.Some? then d.raised.value
                                           else if run.download.Raised? then run.download.message
                                           else STOP_ITERATION_MESSAGE))
            && (FieldIs(s[jobId], Status, "completed") ==>
                  && FirstGlobMatch(DOWNLOAD_DIR, listing, jobId).Some?
                  && File in s[jobId]
                  && s[jobId][File] == Str(FirstGlobMatch(DOWNLOAD_DIR, listing, jobId).value))
            && (FieldIs(s[jobId], Status, "completed") ==>
                  var d := DeliverEvents(store[jobId := InitRecord()], jobId, run.events, parse);
                  && s[jobId].Keys == {Status, Progress, File}
                  && s[jobId][Progress] == d.store[jobId][Progress])
  {
    var d := DeliverEvents(store[jobId := InitRecord()], jobId, run.events, parse);
    DeliveredJob(store, jobId, run.events, parse);
    assert WorkerRun(store, jobId, run, listing, parse)[jobId]
           == FinalRecord(d.store[jobId], d.raised, run.download, FirstGlobMatch(DOWNLOAD_DIR, listing, jobId));
  }

  /** `worker` with the run the library makes of the URL and options. */
  function WorkerEffect(store: Store, jobId: string, url: string, fmt: string, engine: Engine,
                        listing: seq<string>, parse: FloatParser): (s: Store)
    ensures s.Keys == store.Keys + {jobId}
    ensures WellFormed(store) ==> WellFormed(s)
  {
    WorkerRun(store, jobId, engine(WorkerOptions(jobId, fmt), url), listing, parse)
  }

  /**
   * A job ends completed exactly when the callback never raised, `download` returned
   * and the glob found a file; a job with no output file never ends completed, and its
   * error is the empty text of StopIteration.
   */
  lemma WorkerCompletedIff(store: Store, jobId: string, run: EngineRun, listing: seq<string>, parse: FloatParser)
    ensures var s := WorkerRun(store, jobId, run, listing, parse);
            FieldIs(s[jobId], Status, "completed") <==>
              && (forall i :: 0 <= i < |run.events| ==> !Unparsable(run.events[i], parse))
              && run.download == Returned
              && exists k :: 0 <= k < |listing| && GlobMatches(listing[k], jobId)
    ensures var s := WorkerRun(store, jobId, run, listing, parse);
            (forall i :: 0 <= i < |run.events| ==> !Unparsable(run.events[i], parse)) &&
            run.download == Returned && (forall k :: 0 <= k < |listing| ==> !GlobMatches(listing[k], jobId)) ==>
              s[jobId] == FailedRecord(STOP_ITERATION_MESSAGE)
  {
    var d := DeliverEvents(store[jobId := InitRecord()], jobId, run.events, parse);
    DeliveredJob(store, jobId, run.events, parse);
    assert WorkerRun(store, jobId, run, listing, parse)[jobId]
           == FinalRecord(d.store[jobId], d.raised, run.download, FirstGlobMatch(DOWNLOAD_DIR, listing, jobId));
  }

  /**
   * A completed job whose last event was not 'downloading' (the download library ends
   * on 'finished') reports progress `{}`, not 100.
   */
  lemma CompletedJobProgressIsEmptyDict(store: Store, jobId: string, run: EngineRun, listing: seq<string>, parse: FloatParser)
    requires run.events != [] && run.events[|run.events| - 1].status != "downloading"
    requires FieldIs(WorkerRun(store, jobId, run, listing, parse)[jobId], Status, "completed")
    ensures WorkerRun(store, jobId, run, listing, parse)[jobId][Progress] == EmptyDict
  {
    var created := store[jobId := InitRecord()];
    DeliverEndsWithEmptyProgress(created, jobId, run.events, parse);
  }

  /* ------------------------------------------------------ read handlers */

  /** `status`: 404 for an unknown id, else the stored record as it is. */
  function GetStatus(store: Store, jobId: string): (r: Response<Record>)
    ensures r.HttpError? <==> jobId !in store
    ensures r.HttpError? ==> r.code == 404 && r.detail == "Job yok"
    ensures r.Reply? ==> r.body == store[jobId]
  {
    if jobId !in store then HttpError(404, "Job yok") else Reply(store[jobId])
  }

  const NOT_READY := "Hazır değil"

  /**
   * `fetch`: 400 both for an unknown id (or an empty record) and for a status other
   * than completed, never 404. A completed record without a string file makes
   * `job["file"]` or `basename` raise: 500. Otherwise the stored file, named by its basename.
   */
  function Fetch(store: Store, jobId: string): (r: Response<FileDownload>)
    ensures r.HttpError? ==> r.code == 400 || r.code == 500
    ensures (r.HttpError? && r.code == 400) <==> jobId !in store || !FieldIs(store[jobId], Status, "completed")
    ensures r.HttpError? && r.code == 400 ==> r.detail == NOT_READY
    ensures r.Reply? <==> jobId in store && FieldIs(store[jobId], Status, "completed") &&
                          File in store[jobId] && store[jobId][File].Str?
    ensures r.Reply? ==> r.body.path == store[jobId][File].s && r.body.filename == Basename(r.body.path) &&
                         r.body.mediaType == None
    ensures Settled(store) && r.HttpError? ==> r.code == 400
  {
    if jobId !in store || store[jobId] == map[] then
      HttpError(400, NOT_READY)
    else
      var job := store[jobId];
      if Status !in job || job[Status] != Str("completed") then
        HttpError(400, NOT_READY)
      else if File !in job || !job[File].Str? then
        HttpError(500, "Internal Server Error")
      else
        Reply(FileDownload(job[File].s, Basename(job[File].s), None))
  }

  /**
   * What `fetch` would answer if it were scheduled between `status = "completed"` and
   * the assignment of the file: the record is completed without a file, so 500. The
   * single event loop the server runs never schedules a request there.
   */
  lemma FetchBeforeFileIsSet(store: Store, jobId: string, run: EngineRun, parse: FloatParser)
    requires DeliverEvents(store[jobId := InitRecord()], jobId, run.events, parse).raised.None?
    ensures var delivered := DeliverEvents(store[jobId := InitRecord()], jobId, run.events, parse);
            Fetch(MarkCompleted(delivered.store, jobId), jobId).HttpError?
            && Fetch(MarkCompleted(delivered.store, jobId), jobId).code == 500
  {
    var created := store[jobId := InitRecord()];
    var delivered := DeliverEvents(created, jobId, run.events, parse);
    assert File !in delivered.store[jobId];
  }

  datatype Health = Health(status: string, jobs: int)

  /** `health`: ok, with the number of job ids. */
  function GetHealth(store: Store): (r: Health)
    ensures r.status == "ok" && r.jobs == |store.Keys|
  {
    Health("ok", |store|)
  }

  /* --------------------------------------------------------- the store */

  /** The dictionary `jobs` and the code that changes it in place. */
  class Server {
    var jobs: Store

    /** Well-formed, and every completed job has its file, between any two steps. */
    ghost predicate Valid()
      reads this
    {
      Settled(jobs)
    }

    constructor ()
      ensures Valid() && jobs == map[]
    {
      jobs := map[];
    }

    /** The progress lambda of `worker`, called with one event; returns what it raised. */
    method Callback(jobId: string, d: ProgressEvent, parse: FloatParser) returns (raised: Option<string>)
      requires Valid() && jobId in jobs
      modifies this
      ensures Valid() && jobId in jobs
      ensures CallbackEffect(old(jobs), jobId, d, parse).Success? ==>
                raised == None && jobs == CallbackEffect(old(jobs), jobId, d, parse).value
      ensures CallbackEffect(old(jobs), jobId, d, parse).Failure? ==>
                raised == Some(CallbackEffect(old(jobs), jobId, d, parse).error) && jobs == old(jobs)
    {
      raised := None;
      if d.status == "downloading" {
        var parsed := parse(PercentText(d));
        if parsed.Failure? {
          return Some(parsed.error);
        }
        jobs := jobs[jobId := jobs[jobId][Progress := Float(parsed.value)]];
      } else {
        jobs := jobs[jobId := jobs[jobId][Progress := EmptyDict]];
      }
    }

    /** `ydl.download` calling the callback once per event until one raises. */
    method Deliver(jobId: string, events: seq<ProgressEvent>, parse: FloatParser) returns (raised: Option<string>)
      requires Valid() && jobId in jobs
      modifies this
      ensures Valid() && jobId in jobs
      ensures Delivery(jobs, raised) == DeliverEvents(old(jobs), jobId, events, parse)
    {
      raised := None;
      var i := 0;
      while i < |events| && raised.None?
        invariant 0 <= i <= |events|
        invariant Valid() && jobId in jobs
        invariant raised.None? ==> DeliverEvents(old(jobs), jobId, events, parse) == DeliverEvents(jobs, jobId, events[i..], parse)
        invariant raised.Some? ==> DeliverEvents(old(jobs), jobId, events, parse) == Delivery(jobs, raised)
      {
        assert events[i..][1..] == events[i + 1..];
        raised := Callback(jobId, events[i], parse);
        i := i + 1;
      }
    }

    /** The background task `worker(job_id, url, fmt)`, with `listing` the download directory afterwards. */
    method Worker(jobId: string, url: string, fmt: string, engine: Engine, listing: seq<string>, parse: FloatParser)
      requires Valid()
      modifies this
      ensures Valid()
      ensures jobs == WorkerEffect(old(jobs), jobId, url, fmt, engine, listing, parse)
    {
      ghost var before := jobs;
      jobs := jobs[jobId := InitRecord()];
      var opts := WorkerOptions(jobId, fmt);
      var run := engine(opts, url);
      var raised := Deliver(jobId, run.events, parse);
      ghost var mid := jobs;
      DeliveredJob(before, jobId, run.events, parse);
      ghost var final := FinalRecord(mid[jobId], raised, run.download, FirstGlobMatch(DOWNLOAD_DIR, listing, jobId));
      match raised {
        case Some(e) =>
          jobs := jobs[jobId := FailedRecord(e)];
        case None =>
          match run.download {
            case Raised(e) =>
              jobs := jobs[jobId := FailedRecord(e)];
            case Returned =>
              jobs := jobs[jobId := jobs[jobId][Status := Str("completed")]];
              var found := FirstGlobMatch(DOWNLOAD_DIR, listing, jobId);
              match found {
                case None =>
                  UpdateTwice(mid, jobId, jobs[jobId], FailedRecord(STOP_ITERATION_MESSAGE));
                  jobs := jobs[jobId := FailedRecord(STOP_ITERATION_MESSAGE)];
                case Some(path) =>
                  UpdateTwice(mid, jobId, jobs[jobId], jobs[jobId][File := Str(path)]);
                  jobs := jobs[jobId := jobs[jobId][File := Str(path)]];
              }
          }
      }
      assert jobs == mid[jobId := final];
      assert jobs == WorkerRun(before, jobId, run, listing, parse);
    }
  }
}
