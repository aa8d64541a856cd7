/**
 * The values both job trackers keep: a job record is a Python dict from string keys to
 * values, and the store maps each job id to its record.
 */
module Records {
  import opened Wrappers

  /** The kinds of value a record field holds in the source. */
  datatype Value =
    | Str(s: string)
    | Int(i: int)
    | Float(f: real)   // a Python float, taken as a real number
    | EmptyDict        // the `{}` that api.py's progress callback stores
    | PyNone           // a `None` the probe reported for a field, stored as it is

  /** The keys the code ever writes into a record, one constructor per Python string key. */
  datatype Key =
    | Status     // "status"
    | Progress   // "progress"
    | Url        // "url"
    | Format     // "format"
    | Speed      // "speed"
    | Eta        // "eta"
    | FilePath   // "file_path"
    | VideoId    // "video_id"
    | Title      // "title"
    | Duration   // "duration"
    | Uploader   // "uploader"
    | Error      // "error"
    | File       // "file"

  type Record = map<Key, Value>

  /** The process-wide dictionary from job id to record. */
  type Store = map<string, Record>

  /** Python's `float(text)`: the number, or the message of the ValueError it raises. */
  type FloatParser = string -> Result<real, string>

  /**
   * The dictionary the download library hands to a progress hook: `d['status']`,
   * `d['info_dict']['id']`, `d['_percent_str']`, `d['_speed_str']`, `d['_eta_str']`
   * and `d['filename']`; an absent optional key is None.
   */
  datatype ProgressEvent = ProgressEvent(
    status: string,
    infoId: Option<string>,
    percentStr: Option<string>,
    speedStr: Option<string>,
    etaStr: Option<string>,
    filename: string)

  /** How a call into the download library ends: normally, or by raising. */
  datatype Outcome = Returned | Raised(message: string)

  /** The options handed to the download library that bear on the tracker. */
  datatype YdlOptions = YdlOptions(format: string, mergeOutputFormat: Option<string>, outtmpl: string)

  /** What a request handler answers: a body, or an HTTP error status with its detail. */
  datatype Response<+T> = Reply(body: T) | HttpError(code: int, detail: string)

  /** A `FileResponse`: the path served, the download file name and the media type, if given. */
  datatype FileDownload = FileDownload(path: string, filename: string, mediaType: Option<string>)

  /** Both versions keep their files in the relative directory `downloads`. */
  const DOWNLOAD_DIR := "downloads"

  /** The output template `str(DOWNLOAD_DIR / f'{job_id}.%(ext)s')`. */
  function OutputTemplate(jobId: string): string {
    DOWNLOAD_DIR + "/" + jobId + ".%(ext)s"
  }

  /** Field `field` of the record holds the string `s`. */
  predicate FieldIs(r: Record, field: Key, s: string) {
    field in r && r[field] == Str(s)
  }

  /** `os.getenv("API_KEY", "your-secret-api-key")`. */
  const DEFAULT_API_KEY := "your-secret-api-key"

  function ApiKey(env: Option<string>): string {
    env.GetOr(DEFAULT_API_KEY)
  }

  /** A second write to the same key of a dictionary hides the first. */
  lemma UpdateTwice<K, V>(m: map<K, V>, k: K, a: V, b: V)
    ensures m[k := a][k := b] == m[k := b]
  {
  }
}
